// A tick's block changes of one chunk: the deduplication in ChunkBroadcaster::BroadcastBlockChanges,
// the 16-bit coordinates of the multi-block packet, and the box that ChunkSender::SendBlockUpdates
// re-sends when there are many changes. Coordinates are local to the chunk.
module BlockChanges {
  import opened Sequences

  const CHUNK_WIDTH := 16
  const CHUNK_HEIGHT := 128

  datatype Change = Change(x: int, y: int, z: int, block: int, data: int)

  predicate Local(c: Change)
  {
    0 <= c.x < CHUNK_WIDTH && 0 <= c.z < CHUNK_WIDTH && 0 <= c.y < CHUNK_HEIGHT
  }

  predicate AllLocal(cs: seq<Change>) { forall k :: 0 <= k < |cs| ==> Local(cs[k]) }

  // What a world reports about one of its chunks.
  type LocalChanges = cs: seq<Change> | AllLocal(cs)

  // The key under which the source looks up earlier changes of the same block.
  function Key(c: Change): int { c.x % 16 + 16 * (c.z % 16) + 256 * c.y }

  // ----- meaning -----

  type Terrain = map<(int, int, int), (int, int)>

  function Apply(t: Terrain, c: Change): Terrain { t[(c.x, c.y, c.z) := (c.block, c.data)] }

  function ApplyAll(t: Terrain, cs: seq<Change>): Terrain
  {
    if cs == [] then t else Apply(ApplyAll(t, cs[..|cs| - 1]), cs[|cs| - 1])
  }

  // The last change under a key.
  function LastWrite(cs: seq<Change>, key: int): Option<Change>
  {
    if cs == [] then None
    else if Key(cs[|cs| - 1]) == key then Some(cs[|cs| - 1])
    else LastWrite(cs[..|cs| - 1], key)
  }

  predicate OneEntryPerKey(cs: seq<Change>)
  {
    forall i, j :: 0 <= i < j < |cs| ==> Key(cs[i]) != Key(cs[j])
  }

  // `unique` holds, for every key that occurs in `cs`, exactly its last change.
  ghost predicate Deduplicates(unique: seq<Change>, cs: seq<Change>)
  {
    && OneEntryPerKey(unique)
    && (forall u :: u in unique ==> LastWrite(cs, Key(u)) == Some(u))
    && (forall key :: LastWrite(cs, key).Some? ==> LastWrite(cs, key).value in unique)
  }

  // ChunkBroadcaster's loop over the changes of one chunk.
  method Dedupe(cs: seq<Change>) returns (unique: seq<Change>)
    ensures Deduplicates(unique, cs)
    ensures |unique| <= |cs|
    ensures cs != [] ==> unique != []
  {
    unique := [];
    var indexOf: map<int, nat> := map[];
    var n := 0;
    while n < |cs|
      invariant 0 <= n <= |cs| && |unique| <= n
      invariant n > 0 ==> unique != []
      invariant Indexes(indexOf, unique, cs[..n])
    {
      var pb := cs[n];
      var key := Key(pb);
      IndexNext(indexOf, unique, cs, n);
      hide Indexes, Key;
      if key !in indexOf {
        indexOf := indexOf[key := |unique|];
        unique := unique + [pb];
      } else {
        unique := unique[indexOf[key] := pb];
      }
      n := n + 1;
    }
    assert cs[..n] == cs;
    LastWritesAreThere(cs, unique, indexOf);
  }

  // `unique` holds the last write of each key of cs, once, and `indexOf` says where.
  ghost predicate Indexes(indexOf: map<int, nat>, unique: seq<Change>, cs: seq<Change>)
  {
    && (forall key :: key in indexOf ==> indexOf[key] < |unique| && Key(unique[indexOf[key]]) == key)
    && (forall k :: 0 <= k < |unique| ==> Key(unique[k]) in indexOf && indexOf[Key(unique[k])] == k)
    && (forall k :: 0 <= k < |unique| ==> LastWrite(cs, Key(unique[k])) == Some(unique[k]))
    && (forall key :: LastWrite(cs, key).Some? ==> key in indexOf)
  }

  lemma IndexNext(indexOf: map<int, nat>, unique: seq<Change>, cs: seq<Change>, n: nat)
    requires n < |cs| && Indexes(indexOf, unique, cs[..n])
    ensures var pb := cs[n]; var key := Key(pb);
            if key !in indexOf then Indexes(indexOf[key := |unique|], unique + [pb], cs[..n + 1])
            else indexOf[key] < |unique| && Indexes(indexOf, unique[indexOf[key] := pb], cs[..n + 1])
  {
    hide Key;
    forall key ensures LastWrite(cs[..n + 1], key) ==
      if Key(cs[n]) == key then Some(cs[n]) else LastWrite(cs[..n], key) {
      LastWriteNext(cs, n, key);
    }
    hide LastWrite;
  }

  lemma LastWriteNext(cs: seq<Change>, n: nat, key: int)
    requires n < |cs|
    ensures LastWrite(cs[..n + 1], key) == if Key(cs[n]) == key then Some(cs[n]) else LastWrite(cs[..n], key)
  {
    assert cs[..n + 1][..n] == cs[..n];
  }

  lemma LastWritesAreThere(cs: seq<Change>, unique: seq<Change>, indexOf: map<int, nat>)
    requires forall key :: key in indexOf ==> indexOf[key] < |unique| && Key(unique[indexOf[key]]) == key
    requires forall k :: 0 <= k < |unique| ==> LastWrite(cs, Key(unique[k])) == Some(unique[k])
    requires forall key :: LastWrite(cs, key).Some? ==> key in indexOf
    ensures forall key :: LastWrite(cs, key).Some? ==> LastWrite(cs, key).value in unique
  {
    forall key | LastWrite(cs, key).Some? ensures LastWrite(cs, key).value in unique {
      var k := indexOf[key];
      assert LastWrite(cs, Key(unique[k])) == Some(unique[k]);
    }
  }

  lemma SmallMod(v: int, m: nat)
    requires 0 <= v < m
    ensures v % m == v
  {
  }

  lemma LocalKey(c: Change)
    requires Local(c)
    ensures Key(c) == c.x + 16 * c.z + 256 * c.y
  {
    SmallMod(c.x, 16);
    SmallMod(c.z, 16);
  }

  // On local coordinates two changes share a key only if they touch the same block.
  lemma KeyIsInjective(a: Change, b: Change)
    requires Local(a) && Local(b)
    ensures Key(a) == Key(b) <==> (a.x, a.y, a.z) == (b.x, b.y, b.z)
  {
    hide Key;
    LocalKey(a);
    LocalKey(b);
    if Key(a) == Key(b) {
      assert 0 <= a.x + 16 * a.z < 256 && 0 <= b.x + 16 * b.z < 256;
      assert a.y == b.y;
      assert a.x + 16 * a.z == b.x + 16 * b.z;
    }
  }

  lemma {:induction false} LastWriteIsFromList(cs: seq<Change>, key: int)
    ensures var w := LastWrite(cs, key);
            w.Some? ==> w.value in cs && Key(w.value) == key
    ensures forall c :: c in cs && Key(c) == key ==> LastWrite(cs, key).Some?
    decreases |cs|
  {
    if cs != [] {
      LastWriteIsFromList(cs[..|cs| - 1], key);
      assert cs == cs[..|cs| - 1] + [cs[|cs| - 1]];
    }
  }

  // After applying a list, a block holds the last change under its key, or what it held before.
  lemma {:induction false} LookupIsLastWrite(t: Terrain, cs: seq<Change>, p: Change)
    requires AllLocal(cs) && Local(p)
    ensures var w := LastWrite(cs, Key(p)); var r := ApplyAll(t, cs); var at := (p.x, p.y, p.z);
            if w.Some? then at in r && r[at] == (w.value.block, w.value.data)
            else (at in r <==> at in t) && (at in r ==> r[at] == t[at])
    decreases |cs|
  {
    if cs != [] {
      var last := cs[|cs| - 1];
      KeyIsInjective(last, p);
      LookupIsLastWrite(t, cs[..|cs| - 1], p);
    }
  }

  lemma {:induction false} OthersUntouched(t: Terrain, cs: seq<Change>, at: (int, int, int))
    requires AllLocal(cs) && forall c :: c in cs ==> (c.x, c.y, c.z) != at
    ensures var r := ApplyAll(t, cs);
            (at in r <==> at in t) && (at in r ==> r[at] == t[at])
    decreases |cs|
  {
    if cs != [] {
      assert cs == cs[..|cs| - 1] + [cs[|cs| - 1]];
      OthersUntouched(t, cs[..|cs| - 1], at);
    }
  }

  // In a list with one entry per key the last write under an entry's key is the entry.
  lemma {:induction false} UniqueLastWrite(cs: seq<Change>, k: nat)
    requires OneEntryPerKey(cs) && k < |cs|
    ensures LastWrite(cs, Key(cs[k])) == Some(cs[k])
    decreases |cs|
  {
    if k < |cs| - 1 {
      UniqueLastWrite(cs[..|cs| - 1], k);
    }
  }

  lemma DedupeKeepsLastWrites(cs: seq<Change>, unique: seq<Change>, key: int)
    requires Deduplicates(unique, cs)
    ensures LastWrite(unique, key) == LastWrite(cs, key)
  {
    var w := LastWrite(cs, key);
    LastWriteIsFromList(cs, key);
    LastWriteIsFromList(unique, key);
    if w.Some? {
      var k :| 0 <= k < |unique| && unique[k] == w.value;
      UniqueLastWrite(unique, k);
    }
  }

  // Sending the deduplicated list instead of the whole list gives every client the same terrain.
  lemma DedupePreservesMeaning(t: Terrain, cs: seq<Change>, unique: seq<Change>)
    requires AllLocal(cs) && Deduplicates(unique, cs)
    ensures AllLocal(unique)
    ensures ApplyAll(t, unique) == ApplyAll(t, cs)
  {
    DeduplicatesLocal(cs, unique);
    hide ApplyAll, Deduplicates, LastWrite, AllLocal;
    var a, b := ApplyAll(t, unique), ApplyAll(t, cs);
    forall at: (int, int, int)
      ensures (at in a <==> at in b) && (at in a ==> a[at] == b[at])
    {
      DedupeMeansTheSameAt(t, cs, unique, at);
    }
    assert a.Keys == b.Keys;
  }

  lemma DeduplicatesLocal(cs: seq<Change>, unique: seq<Change>)
    requires AllLocal(cs) && Deduplicates(unique, cs)
    ensures AllLocal(unique)
  {
    forall u | u in unique ensures u in cs {
      LastWriteIsFromList(cs, Key(u));
    }
  }

  lemma DedupeMeansTheSameAt(t: Terrain, cs: seq<Change>, unique: seq<Change>, at: (int, int, int))
    requires AllLocal(cs) && AllLocal(unique) && Deduplicates(unique, cs)
    ensures at in ApplyAll(t, unique) <==> at in ApplyAll(t, cs)
    ensures at in ApplyAll(t, cs) ==> ApplyAll(t, unique)[at] == ApplyAll(t, cs)[at]
  {
    hide ApplyAll, Deduplicates, LastWrite;
    var p := Change(at.0, at.1, at.2, 0, 0);
    if Local(p) {
      LookupIsLastWrite(t, cs, p);
      LookupIsLastWrite(t, unique, p);
      DedupeKeepsLastWrites(cs, unique, Key(p));
    } else {
      OthersUntouched(t, cs, at);
      OthersUntouched(t, unique, at);
    }
  }

  // ----- the multi-block packet -----

  function ToInt16(v: int): int { (v + 0x8000) % 0x1_0000 - 0x8000 }

  // Four bits of x, four of z, eight of y, stored in a signed 16-bit field.
  function FormatMultiBlock(x: int, y: int, z: int): int
  {
    ToInt16((x % 16) * 4096 + (z % 16) * 256 + y % 256)
  }

  function DecodeMultiBlock(v: int): (int, int, int)
  {
    var u := v % 0x1_0000;
    (u / 4096, u % 256, u / 256 % 16)
  }

  lemma MultiBlockRoundTrip(c: Change)
    requires Local(c)
    ensures -0x8000 <= FormatMultiBlock(c.x, c.y, c.z) < 0x8000
    ensures DecodeMultiBlock(FormatMultiBlock(c.x, c.y, c.z)) == (c.x, c.y, c.z)
  {
    var u := c.x * 4096 + c.z * 256 + c.y;
    SmallMod(c.x, 16);
    SmallMod(c.z, 16);
    SmallMod(c.y, 256);
    assert FormatMultiBlock(c.x, c.y, c.z) == ToInt16(u);
    WrapRoundTrip(u);
    PackedDigits(c.x, c.z, c.y);
  }

  lemma WrapRoundTrip(u: int)
    requires 0 <= u < 0x1_0000
    ensures -0x8000 <= ToInt16(u) < 0x8000 && ToInt16(u) % 0x1_0000 == u
  {
    if u < 0x8000 {
      SmallMod(u + 0x8000, 0x1_0000);
    } else {
      assert u + 0x8000 == 0x1_0000 + (u - 0x8000);
      assert ToInt16(u) == u - 0x1_0000;
    }
  }

  lemma PackedDigits(x: int, z: int, y: int)
    requires 0 <= x < 16 && 0 <= z < 16 && 0 <= y < 256
    ensures var u := x * 4096 + z * 256 + y; u / 4096 == x && u % 256 == y && u / 256 % 16 == z
  {
    var u := x * 4096 + z * 256 + y;
    assert u == 256 * (x * 16 + z) + y;
    assert u / 256 == x * 16 + z;
    assert u == 4096 * x + (z * 256 + y);
  }

  // ----- the sub-region box -----

  // Inclusive bounds.
  datatype Box = Box(xmin: int, xmax: int, ymin: int, ymax: int, zmin: int, zmax: int)

  function Min(a: int, b: int): int { if a < b then a else b }

  function Max(a: int, b: int): int { if a > b then a else b }

  function Extend(b: Box, c: Change): Box
  {
    Box(Min(b.xmin, c.x), Max(b.xmax, c.x), Min(b.ymin, c.y), Max(b.ymax, c.y), Min(b.zmin, c.z), Max(b.zmax, c.z))
  }

  function Hull(cs: seq<Change>): Box
    requires cs != []
  {
    var c := cs[|cs| - 1];
    if |cs| == 1 then Box(c.x, c.x, c.y, c.y, c.z, c.z) else Extend(Hull(cs[..|cs| - 1]), c)
  }

  // C++ integer division by two.
  function Half(v: int): int { if v < 0 then -(-v / 2) else v / 2 }

  // Widen to even height, inside the chunk.
  function EvenHeight(b: Box): Box
  {
    b.(ymin := Max(Half(b.ymin) * 2, 0), ymax := Min((Half(b.ymax) + 1) * 2 - 1, CHUNK_HEIGHT - 1))
  }

  function BoxOf(cs: seq<Change>): Box
    requires cs != []
  {
    EvenHeight(Hull(cs))
  }

  // SendBlockUpdates' loop over the changes.
  method BoundingBox(cs: seq<Change>) returns (b: Box)
    requires cs != []
    ensures b == BoxOf(cs)
  {
    var p0 := cs[0];
    var xmin, xmax, ymin, ymax, zmin, zmax := p0.x, p0.x, p0.y, p0.y, p0.z, p0.z;
    var n := 0;
    while n < |cs|
      invariant 0 <= n <= |cs|
      invariant n == 0 ==> Box(xmin, xmax, ymin, ymax, zmin, zmax) == Hull([p0])
      invariant n > 0 ==> Box(xmin, xmax, ymin, ymax, zmin, zmax) == Hull(cs[..n])
    {
      var pos := cs[n];
      if pos.x > xmax { xmax := pos.x; }
      if pos.x < xmin { xmin := pos.x; }
      if pos.y > ymax { ymax := pos.y; }
      if pos.y < ymin { ymin := pos.y; }
      if pos.z > zmax { zmax := pos.z; }
      if pos.z < zmin { zmin := pos.z; }
      assert cs[..n + 1][..n] == cs[..n];
      n := n + 1;
    }
    assert cs[..n] == cs;
    ymin := Half(ymin) * 2;
    ymax := (Half(ymax) + 1) * 2 - 1;
    ymin := Max(ymin, 0);
    ymax := Min(ymax, CHUNK_HEIGHT - 1);
    b := Box(xmin, xmax, ymin, ymax, zmin, zmax);
  }

  predicate InBox(b: Box, c: Change)
  {
    b.xmin <= c.x <= b.xmax && b.ymin <= c.y <= b.ymax && b.zmin <= c.z <= b.zmax
  }

  predicate InsideChunk(b: Box)
  {
    0 <= b.xmin <= b.xmax < CHUNK_WIDTH && 0 <= b.zmin <= b.zmax < CHUNK_WIDTH
    && 0 <= b.ymin <= b.ymax < CHUNK_HEIGHT
  }

  lemma {:induction false} HullIsTight(cs: seq<Change>)
    requires cs != []
    ensures forall c :: c in cs ==> InBox(Hull(cs), c)
    ensures AllLocal(cs) ==> InsideChunk(Hull(cs))
    decreases |cs|
  {
    var rest := cs[..|cs| - 1];
    assert cs == rest + [cs[|cs| - 1]];
    if |cs| > 1 {
      HullIsTight(rest);
      assert AllLocal(cs) ==> AllLocal(rest);
    }
  }

  // The box holds every change, stays inside the chunk, and has even height from an even start.
  lemma BoxIsFaithful(cs: seq<Change>)
    requires cs != [] && AllLocal(cs)
    ensures var b := BoxOf(cs);
            && InsideChunk(b)
            && (forall c :: c in cs ==> InBox(b, c))
            && b.ymin % 2 == 0 && (b.ymax - b.ymin + 1) % 2 == 0
  {
    HullIsTight(cs);
  }
}
