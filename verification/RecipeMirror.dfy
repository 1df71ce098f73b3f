// Mirroring a crafting grid in place, and keys that do not care about order: the sorted list of valid
// items that identifies a shapeless recipe.
module RecipeMirror {
  import opened Sequences
  import opened RecipeKeys

  // ----- mirroring -----

  function MirrorIndex(w: nat, i: nat): int
    requires w > 0
  {
    i / w * w + (w - 1 - i % w)
  }

  lemma MirrorIndexInRange(w: nat, h: nat, i: nat)
    requires w > 0 && i < w * h
    ensures 0 <= MirrorIndex(w, i) < w * h && MirrorIndex(w, i) / w == i / w && MirrorIndex(w, i) % w == w - 1 - i % w
  {
    var y, x := i / w, w - 1 - i % w;
    RowInRange(w, h, i);
    IndexInverse(w, x, y);
    IndexInRange(w, h, x, y);
  }

  lemma RowInRange(w: nat, h: nat, i: nat)
    requires w > 0 && i < w * h
    ensures 0 <= i / w < h && 0 <= i % w < w
  {
    var y := i / w;
    assert i == w * y + i % w;
    assert w * (y - h) < 0;
  }

  lemma IndexInverse(w: nat, x: nat, y: nat)
    requires x < w
    ensures (y * w + x) / w == y && (y * w + x) % w == x
  {
    var i := y * w + x;
    assert i == w * (i / w) + i % w;
    var d := i / w - y;
    assert w * d == x - i % w;
  }

  function Mirrored(g: Grid): (r: Grid)
  {
    Layout(g.w, g.h, seq(|g.cells|, i requires 0 <= i < |g.cells| => MirrorCell(g, i)))
  }

  function MirrorCell(g: Grid, i: nat): ItemKey
    requires i < |g.cells|
  {
    if g.w == 0 then EMPTY else
    MirrorIndexInRange(g.w, g.h, i);
    g.cells[MirrorIndex(g.w, i)]
  }

  lemma MirroredAt(g: Grid, x: int, y: int)
    ensures At(Mirrored(g), x, y) == At(g, g.w - 1 - x, y)
  {
    if Inside(g, x, y) {
      IndexInRange(g.w, g.h, x, y);
      IndexInverse(g.w, x, y);
      assert Mirrored(g).cells[y * g.w + x] == MirrorCell(g, y * g.w + x);
    }
  }

  lemma MirrorIndexTwice(w: nat, h: nat, i: nat)
    requires w > 0 && i < w * h
    ensures 0 <= MirrorIndex(w, i) && MirrorIndex(w, MirrorIndex(w, i)) == i
  {
    MirrorIndexInRange(w, h, i);
    assert i == i / w * w + i % w;
  }

  lemma MirrorTwice(g: Grid)
    ensures Mirrored(Mirrored(g)) == g
  {
    var m := Mirrored(g);
    forall i | 0 <= i < |g.cells| ensures Mirrored(m).cells[i] == g.cells[i] {
      MirrorIndexInRange(g.w, g.h, i);
      MirrorIndexTwice(g.w, g.h, i);
      hide MirrorIndex;
      var j := MirrorIndex(g.w, i);
      assert m.cells[j] == MirrorCell(g, j);
    }
  }

  // ----- keying commutes with mirroring -----

  function MirrorKey(k: ShapedKey): ShapedKey
    requires 0 <= k.width <= 3 && |k.cells| == 9
  {
    k.(cells := seq(9, i requires 0 <= i < 9 =>
      if i % 3 < k.width then k.cells[i / 3 * 3 + (k.width - 1 - i % 3)] else EMPTY))
  }

  function MirrorBox(g: Grid, b: Box): Box
  {
    if b.maxX == -1 then b else Box(g.w - 1 - b.maxX, b.minY, g.w - 1 - b.minX, b.maxY)
  }

  lemma MirrorBoxIsBox(g: Grid, b: Box)
    requires IsBox(g, b, 0, g.h)
    ensures IsBox(Mirrored(g), MirrorBox(g, b), 0, g.h)
  {
    var m, c := Mirrored(g), MirrorBox(g, b);
    forall x, y ensures At(m, x, y) == At(g, g.w - 1 - x, y) { MirroredAt(g, x, y); }
    BoxKinds(g, b);
    hide Mirrored, At;
    if b.maxX != -1 {
      MirrorTight(g, m, b);
    }
  }

  lemma MirrorTight(g: Grid, m: Grid, b: Box)
    requires g.w == m.w && Tight(g, b) && b.maxX != -1
    requires forall x, y :: At(m, x, y) == At(g, g.w - 1 - x, y)
    ensures Tight(m, MirrorBox(g, b))
  {
    hide At;
    var y0 :| At(g, b.minX, y0).Some?;
    var y1 :| At(g, b.maxX, y1).Some?;
    var x0 :| At(g, x0, b.minY).Some?;
    var x1 :| At(g, x1, b.maxY).Some?;
    assert At(m, g.w - 1 - b.minX, y0).Some? && At(m, g.w - 1 - b.maxX, y1).Some?;
    assert At(m, g.w - 1 - x0, b.minY).Some? && At(m, g.w - 1 - x1, b.maxY).Some?;
  }

  lemma MirroredCell(g: Grid, x: int, y: int)
    requires Inside(g, x, y)
    ensures Cell(Mirrored(g), x, y) == Cell(g, g.w - 1 - x, y)
  {
    IndexInRange(g.w, g.h, x, y);
    IndexInverse(g.w, x, y);
    assert Mirrored(g).cells[y * g.w + x] == MirrorCell(g, y * g.w + x);
  }

  lemma MirroredSize(g: Grid)
    ensures Mirrored(g).w == g.w && Mirrored(g).h == g.h
  {
  }

  lemma MirroredBoxCell(g: Grid, b: Box, x: int, y: int)
    requires IsBox(g, b, 0, g.h) && b.maxX != -1 && 0 <= x && 0 <= y
    ensures BoxCell(Mirrored(g), MirrorBox(g, b), x, y)
            == if x <= b.maxX - b.minX then BoxCell(g, b, b.maxX - b.minX - x, y) else EMPTY
  {
    hide Mirrored, IsBox, Tight, Cell, Normalize, At;
    BoxIsInside(g, b);
    MirroredSize(g);
    if x <= b.maxX - b.minX && y <= b.maxY - b.minY {
      MirroredCell(g, g.w - 1 - b.maxX + x, b.minY + y);
    }
  }

  lemma KeyParts(g: Grid, b: Box)
    requires b.maxX != -1
    ensures var k := KeyIn(g, b);
            && k.width == b.maxX - b.minX + 1 && k.height == b.maxY - b.minY + 1 && |k.cells| == 9
            && forall i :: 0 <= i < 9 ==> k.cells[i] == KeyCell(g, b, i)
  {
    hide KeyCell;
  }

  lemma MirrorKeyParts(k: ShapedKey)
    requires 0 <= k.width <= 3 && |k.cells| == 9
    ensures var r := MirrorKey(k);
            && r.width == k.width && r.height == k.height && |r.cells| == 9
            && forall i :: 0 <= i < 9 ==>
                 r.cells[i] == if i % 3 < k.width then k.cells[i / 3 * 3 + (k.width - 1 - i % 3)] else EMPTY
  {
  }

  lemma KeyingCommutesWithMirroring(g: Grid, k: ShapedKey)
    requires IsKey(g, k)
    ensures 0 <= k.width <= 3 && |k.cells| == 9 && IsKey(Mirrored(g), MirrorKey(k))
  {
    var b :| IsBox(g, b, 0, g.h) && k == KeyIn(g, b);
    MirrorBoxIsBox(g, b);
    if b.maxX == -1 {
      hide IsBox, Mirrored;
      assert MirrorKey(k).cells == NO_CELLS;
    } else {
      BoxIsInside(g, b);
      KeyParts(g, b);
      MirrorKeyParts(k);
      KeyParts(Mirrored(g), MirrorBox(g, b));
      hide IsBox, Mirrored, KeyCell, Tight, MirrorKey, KeyIn;
      SameMirrorCells(g, b, k);
    }
  }

  lemma MirroredPlace(i: int, last: int)
    requires 0 <= i < 9 && 0 <= last < 3 && i % 3 <= last
    ensures var j := i / 3 * 3 + (last - i % 3);
            0 <= j < 9 && j / 3 == i / 3 && j % 3 == last - i % 3
  {
  }

  lemma SameMirrorCells(g: Grid, b: Box, k: ShapedKey)
    requires IsBox(g, b, 0, g.h) && b.maxX != -1 && k == KeyIn(g, b)
    ensures 0 <= k.width <= 3 && |k.cells| == 9
    ensures KeyIn(Mirrored(g), MirrorBox(g, b)) == MirrorKey(k)
  {
    hide IsBox, Mirrored, BoxCell, Tight, MirrorKey, KeyIn;
    BoxIsInside(g, b);
    KeyParts(g, b);
    KeyParts(Mirrored(g), MirrorBox(g, b));
    MirrorKeyParts(k);
    var r := KeyIn(Mirrored(g), MirrorBox(g, b));
    forall i | 0 <= i < 9 ensures r.cells[i] == MirrorKey(k).cells[i] {
      MirroredBoxCell(g, b, i % 3, i / 3);
      if i % 3 <= b.maxX - b.minX { MirroredPlace(i, b.maxX - b.minX); }
    }
    assert r.cells == MirrorKey(k).cells;
  }

  // The cells of row `row` up to `col` from either side are swapped, and all rows above.
  ghost predicate SwappedTo(w: nat, a: seq<ItemKey>, b: seq<ItemKey>, row: nat, col: nat)
    requires w > 0 && |a| == |b|
  {
    forall i :: 0 <= i < |a| ==>
      0 <= MirrorIndex(w, i) < |a| &&
      b[i] == if i / w < row || (i / w == row && (i % w < col || i % w >= w - col)) then a[MirrorIndex(w, i)] else a[i]
  }

  method MirrorGrid(a: array<ItemKey>, w: nat, h: nat)
    requires Fits(w, h, a.Length)
    modifies a
    ensures Layout(w, h, a[..]) == Mirrored(Layout(w, h, old(a[..])))
    ensures multiset(a[..]) == multiset(old(a[..]))
  {
    if w == 0 {
      return;
    }
    ghost var was := a[..];
    forall i | 0 <= i < |was| ensures 0 <= MirrorIndex(w, i) < |was| {
      MirrorIndexInRange(w, h, i);
    }
    var row := 0;
    while row < h
      invariant 0 <= row <= h && SwappedTo(w, was, a[..], row, 0) && multiset(a[..]) == multiset(was)
    {
      hide SwappedTo;
      MirrorRow(a, w, h, row, was);
      row := row + 1;
    }
    AllSwapped(w, h, was, a[..]);
  }

  method MirrorRow(a: array<ItemKey>, w: nat, h: nat, row: nat, ghost was: seq<ItemKey>)
    requires w > 0 && Fits(w, h, a.Length) && |was| == a.Length && row < h && SwappedTo(w, was, a[..], row, 0)
    modifies a
    ensures SwappedTo(w, was, a[..], row + 1, 0) && multiset(a[..]) == multiset(old(a[..]))
  {
    var col := 0;
    hide SwappedTo;
    while col < w / 2
      invariant 0 <= col <= w / 2 && SwappedTo(w, was, a[..], row, col) && multiset(a[..]) == multiset(old(a[..]))
    {
      IndexInRange(w, h, col, row);
      IndexInRange(w, h, w - col - 1, row);
      SwapOne(w, h, was, a[..], row, col);
      ghost var next := Swap(a[..], row * w + col, row * w + (w - col - 1));
      a[row * w + col], a[row * w + (w - col - 1)] := a[row * w + (w - col - 1)], a[row * w + col];
      assert a[..] == next;
      col := col + 1;
    }
    RowIsSwapped(w, was, a[..], row, col);
  }

  function Swap(q: seq<ItemKey>, i: int, j: int): seq<ItemKey>
    requires 0 <= i < |q| && 0 <= j < |q|
  {
    q[i := q[j]][j := q[i]]
  }

  lemma SwapOne(w: nat, h: nat, was: seq<ItemKey>, now: seq<ItemKey>, row: nat, col: nat)
    requires w > 0 && |was| == |now| == w * h && row < h && col < w / 2 && SwappedTo(w, was, now, row, col)
    requires 0 <= row * w + col < |now| && 0 <= row * w + (w - col - 1) < |now|
    ensures SwappedTo(w, was, Swap(now, row * w + col, row * w + (w - col - 1)), row, col + 1)
  {
    var p, q := row * w + col, row * w + (w - col - 1);
    var next := Swap(now, p, q);
    IndexInverse(w, col, row);
    IndexInverse(w, w - col - 1, row);
    forall i | 0 <= i < |was|
      ensures next[i] == if i / w < row || (i / w == row && (i % w < col + 1 || i % w >= w - col - 1))
              then was[MirrorIndex(w, i)] else was[i]
    {
      AtPlace(w, i, row);
      assert 0 <= MirrorIndex(w, i) < |was|;
      hide MirrorIndex;
      assert i == p || i == q || next[i] == now[i];
    }
  }

  lemma AtPlace(w: nat, i: nat, row: nat)
    requires w > 0
    ensures i / w == row ==> i == row * w + i % w && MirrorIndex(w, i) == row * w + (w - 1 - i % w)
  {
    assert i == i / w * w + i % w;
  }

  lemma RowIsSwapped(w: nat, was: seq<ItemKey>, now: seq<ItemKey>, row: nat, col: nat)
    requires w > 0 && |was| == |now| && col == w / 2 && SwappedTo(w, was, now, row, col)
    ensures SwappedTo(w, was, now, row + 1, 0)
  {
    forall i | 0 <= i < |was| ensures now[i] == if i / w < row + 1 then was[MirrorIndex(w, i)] else was[i] {
      assert 0 <= MirrorIndex(w, i) < |was|;
      if i / w == row && i % w >= col && i % w < w - col { assert i == i / w * w + i % w; }
    }
  }

  lemma AllSwapped(w: nat, h: nat, was: seq<ItemKey>, now: seq<ItemKey>)
    requires w > 0 && Fits(w, h, |was|) && |now| == |was| && SwappedTo(w, was, now, h, 0)
    ensures Layout(w, h, now) == Mirrored(Layout(w, h, was))
  {
    forall i | 0 <= i < |was| ensures now[i] == MirrorCell(Layout(w, h, was), i) {
      MirrorIndexInRange(w, h, i);
    }
    assert now == Mirrored(Layout(w, h, was)).cells;
  }
}
