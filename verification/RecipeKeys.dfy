// The canonical keys of crafting recipes: shaped keys decide translation and commute with mirroring,
// shapeless keys decide permutation. Item metadata that recipes ignore is set to zero first.
module RecipeKeys {
  import opened Sequences

  const INVALID := -1
  const BLOCK_PLANKS := 5
  const BLOCK_SAPLING := 6
  const BLOCK_LOG := 17
  const BLOCK_WOOL := 35
  const BLOCK_MAX := 97
  const SHOVEL_IRON := 256
  const ITEM_MAX := 360
  const RECORD_13 := 2256
  const RECORD_MAX := 2258

  datatype ItemKey = ItemKey(id: int, data: int)

  const EMPTY := ItemKey(INVALID, 0)

  // A crafting grid, row by row.
  datatype Layout = Layout(w: nat, h: nat, cells: seq<ItemKey>)

  predicate Fits(w: nat, h: nat, count: nat) { w <= 3 && h <= 3 && count == w * h }

  type Grid = g: Layout | Fits(g.w, g.h, |g.cells|) witness Layout(0, 0, [])

  datatype ShapedKey = ShapedKey(width: int, height: int, cells: seq<ItemKey>)

  predicate IgnoresMetadata(id: int)
  {
    id == BLOCK_WOOL || id == BLOCK_LOG || id == BLOCK_SAPLING || id == BLOCK_PLANKS
  }

  function Normalize(k: ItemKey): ItemKey { if IgnoresMetadata(k.id) then k.(data := 0) else k }

  // Two items are the same to a recipe if their ids agree, and their metadata too unless they are planks,
  // saplings, logs or wool.
  lemma SameToRecipesExactly(a: ItemKey, b: ItemKey)
    ensures Normalize(a) == Normalize(b) <==>
            a.id == b.id && (a.data == b.data || a.id == 5 || a.id == 6 || a.id == 17 || a.id == 35)
  {
  }

  // ----- positions -----

  predicate Inside(g: Grid, x: int, y: int) { 0 <= x < g.w && 0 <= y < g.h }

  lemma IndexInRange(w: nat, h: nat, x: int, y: int)
    requires 0 <= x < w && 0 <= y < h
    ensures 0 <= y * w + x < w * h
  {
    assert y * w + x < (y + 1) * w <= h * w;
  }

  function Cell(g: Grid, x: int, y: int): ItemKey
    requires Inside(g, x, y)
  {
    IndexInRange(g.w, g.h, x, y);
    g.cells[y * g.w + x]
  }

  // What a recipe sees at a position: the normalised item there, if any.
  function At(g: Grid, x: int, y: int): Option<ItemKey>
  {
    if Inside(g, x, y) && Cell(g, x, y).id != INVALID then Some(Normalize(Cell(g, x, y))) else None
  }

  // What goes into a key at a position: the normalised cell, empty or not.
  function Shows(g: Grid, x: int, y: int): ItemKey
  {
    if Inside(g, x, y) then Normalize(Cell(g, x, y)) else EMPTY
  }

  // An empty cell with items to its left and right, above and below, anywhere in the grid.
  ghost predicate Gap(g: Grid, x: int, y: int) { Enclosed(g, x, y) && At(g, x, y).None? }

  ghost predicate Enclosed(g: Grid, x: int, y: int)
  {
    && (exists u, v :: At(g, u, v).Some? && u <= x) && (exists u, v :: At(g, u, v).Some? && x <= u)
    && (exists u, v :: At(g, u, v).Some? && v <= y) && (exists u, v :: At(g, u, v).Some? && y <= v)
  }

  ghost predicate Shifted(a: Grid, b: Grid, dx: int, dy: int)
  {
    forall x, y :: At(a, x, y) == At(b, x + dx, y + dy)
  }

  // The same items in the same arrangement, wherever they stand in their grids.
  ghost predicate Translates(a: Grid, b: Grid)
  {
    exists dx, dy :: Shifted(a, b, dx, dy)
  }

  // Enclosed empty cells carry the same metadata.
  ghost predicate GapsAgree(a: Grid, b: Grid, dx: int, dy: int)
  {
    forall x, y :: Gap(a, x, y) ==> Shows(a, x, y) == Shows(b, x + dx, y + dy)
  }

  // Translates down to the metadata of enclosed empty cells.
  ghost predicate Alike(a: Grid, b: Grid)
  {
    exists dx, dy :: Shifted(a, b, dx, dy) && GapsAgree(a, b, dx, dy)
  }

  // Empty cells carry no stray metadata.
  predicate Clean(g: Grid) { forall i :: 0 <= i < |g.cells| && g.cells[i].id == INVALID ==> g.cells[i] == EMPTY }

  // ----- the bounding box -----

  datatype Box = Box(minX: int, minY: int, maxX: int, maxY: int)

  function Min(a: int, b: int): int { if a < b then a else b }

  function Max(a: int, b: int): int { if a < b then b else a }

  // The box of the items seen so far, from the start values of the scan.
  ghost predicate IsBox(g: Grid, b: Box, seenX: int, seenY: int)
  {
    && (forall x, y :: At(g, x, y).Some? && (y < seenY || (y == seenY && x < seenX)) ==>
       b.minX <= x <= b.maxX && b.minY <= y <= b.maxY)
    && (b == Box(3, 3, -1, -1) || Tight(g, b))
  }

  // Each side of the box touches an item.
  ghost predicate Tight(g: Grid, b: Box)
  {
    && (exists y :: At(g, b.minX, y).Some?) && (exists y :: At(g, b.maxX, y).Some?)
    && (exists x :: At(g, x, b.minY).Some?) && (exists x :: At(g, x, b.maxY).Some?)
  }

  method FindBox(g: Grid) returns (b: Box)
    ensures IsBox(g, b, 0, g.h)
  {
    b := Box(3, 3, -1, -1);
    var y := 0;
    assert IsBox(g, b, 0, 0);
    hide IsBox;
    while y < g.h
      invariant 0 <= y <= g.h && IsBox(g, b, 0, y)
    {
      var x := 0;
      while x < g.w
        invariant 0 <= x <= g.w && IsBox(g, b, x, y)
      {
        BoxStep(g, b, x, y);
        if Cell(g, x, y).id != INVALID {
          b := Extend(b, x, y);
        }
        x := x + 1;
      }
      RowEnds(g, b, y);
      y := y + 1;
    }
  }

  function Extend(b: Box, x: int, y: int): Box
  {
    Box(Min(b.minX, x), Min(b.minY, y), Max(b.maxX, x), Max(b.maxY, y))
  }

  lemma RowEnds(g: Grid, b: Box, y: int)
    requires IsBox(g, b, g.w, y)
    ensures IsBox(g, b, 0, y + 1)
  {
    hide Tight, Cell;
  }

  lemma BoxStep(g: Grid, b: Box, x: int, y: int)
    requires Inside(g, x, y) && IsBox(g, b, x, y)
    ensures IsBox(g, if Cell(g, x, y).id != INVALID then Extend(b, x, y) else b, x + 1, y)
  {
    hide Cell;
    if At(g, x, y).Some? { BoxGrows(g, b, Extend(b, x, y), x, y); }
  }

  lemma BoxGrows(g: Grid, b: Box, b': Box, x: int, y: int)
    requires IsBox(g, b, x, y) && At(g, x, y).Some?
    requires b' == Box(Min(b.minX, x), Min(b.minY, y), Max(b.maxX, x), Max(b.maxY, y))
    ensures IsBox(g, b', x + 1, y)
  {
    assert x < 3 && y < 3 && x > -1 && y > -1;
  }

  lemma TightIsInside(g: Grid, b: Box, c: Box)
    requires Tight(g, b) && IsBox(g, c, 0, g.h)
    ensures c.minX <= b.minX <= c.maxX && c.minY <= b.minY <= c.maxY
    ensures c.minX <= b.maxX <= c.maxX && c.minY <= b.maxY <= c.maxY
  {
  }

  // ----- shaped keys -----

  const NO_CELLS: seq<ItemKey> := [EMPTY, EMPTY, EMPTY, EMPTY, EMPTY, EMPTY, EMPTY, EMPTY, EMPTY]

  // Cell i of the key when the box is moved to the top left.
  function KeyCell(g: Grid, b: Box, i: int): ItemKey
  {
    BoxCell(g, b, i % 3, i / 3)
  }

  function BoxCell(g: Grid, b: Box, x: int, y: int): ItemKey
  {
    if x <= b.maxX - b.minX && y <= b.maxY - b.minY && Inside(g, b.minX + x, b.minY + y)
    then Normalize(Cell(g, b.minX + x, b.minY + y)) else EMPTY
  }

  function KeyIn(g: Grid, b: Box): ShapedKey
  {
    if b.maxX == -1 then ShapedKey(0, 0, NO_CELLS)
    else ShapedKey(b.maxX - b.minX + 1, b.maxY - b.minY + 1, seq(9, i requires 0 <= i < 9 => KeyCell(g, b, i)))
  }

  ghost predicate IsKey(g: Grid, k: ShapedKey)
  {
    exists b :: IsBox(g, b, 0, g.h) && k == KeyIn(g, b)
  }

  method MakeShapedKey(g: Grid) returns (k: ShapedKey)
    ensures IsKey(g, k)
  {
    var b := FindBox(g);
    if b.maxX == -1 {
      return ShapedKey(0, 0, NO_CELLS);
    }
    BoxIsInside(g, b);
    hide IsBox;
    var width, height := b.maxX - b.minX + 1, b.maxY - b.minY + 1;
    var cells := NO_CELLS;
    var y := 0;
    while y < height
      invariant 0 <= y <= height && CopiedTo(g, b, cells, y, 0)
    {
      hide CopiedTo;
      cells := CopyRow(g, b, cells, y);
      y := y + 1;
    }
    k := ShapedKey(width, height, cells);
    AllCopied(g, b, cells);
  }

  // The key's cells when the box has been copied up to column x of row y.
  ghost predicate CopiedTo(g: Grid, b: Box, cells: seq<ItemKey>, y: int, x: int)
  {
    |cells| == 9 &&
    forall i :: 0 <= i < 9 ==>
      cells[i] == if (i / 3 < y && i % 3 <= b.maxX - b.minX)
        || (i / 3 == y && i % 3 < x) then KeyCell(g, b, i) else EMPTY
  }

  // The loop over one row of the box.
  method CopyRow(g: Grid, b: Box, cells0: seq<ItemKey>, y: int) returns (cells: seq<ItemKey>)
    requires 0 <= b.minX <= b.maxX < g.w <= 3 && 0 <= b.minY <= b.maxY < g.h <= 3 && 0 <= y <= b.maxY - b.minY
    requires CopiedTo(g, b, cells0, y, 0)
    ensures CopiedTo(g, b, cells, y + 1, 0)
  {
    cells := cells0;
    var x := 0;
    while x <= b.maxX - b.minX
      invariant 0 <= x <= b.maxX - b.minX + 1 && CopiedTo(g, b, cells, y, x)
    {
      assert KeyCell(g, b, y * 3 + x) == Normalize(Cell(g, b.minX + x, b.minY + y));
      hide KeyCell, Cell, Normalize, At;
      cells := cells[y * 3 + x := Normalize(Cell(g, b.minX + x, b.minY + y))];
      x := x + 1;
    }
  }

  lemma AllCopied(g: Grid, b: Box, cells: seq<ItemKey>)
    requires 0 <= b.minX <= b.maxX < 3 && CopiedTo(g, b, cells, b.maxY - b.minY + 1, 0)
    ensures ShapedKey(b.maxX - b.minX + 1, b.maxY - b.minY + 1, cells) == KeyIn(g, b)
  {
    assert cells == KeyIn(g, b).cells;
  }

  lemma BoxIsInside(g: Grid, b: Box)
    requires IsBox(g, b, 0, g.h) && b.maxX != -1
    ensures Tight(g, b) && 0 <= b.minX <= b.maxX < g.w <= 3 && 0 <= b.minY <= b.maxY < g.h <= 3
  {
    TightIsInside(g, b, b);
  }

  // ----- two grids have the same shaped key exactly when they are translates -----

  lemma ShiftedBox(a: Grid, b: Grid, dx: int, dy: int, p: Box, q: Box)
    requires Shifted(a, b, dx, dy) && Tight(a, p) && IsBox(b, q, 0, b.h)
    ensures q.minX <= p.minX + dx && p.maxX + dx <= q.maxX && q.minY <= p.minY + dy && p.maxY + dy <= q.maxY
  {
    hide At;
    var y0 :| At(a, p.minX, y0).Some?;
    var y1 :| At(a, p.maxX, y1).Some?;
    var x0 :| At(a, x0, p.minY).Some?;
    var x1 :| At(a, x1, p.maxY).Some?;
    assert At(b, p.minX + dx, y0 + dy).Some? && At(b, p.maxX + dx, y1 + dy).Some?;
    assert At(b, x0 + dx, p.minY + dy).Some? && At(b, x1 + dx, p.maxY + dy).Some?;
    Covered(b, q);
  }

  lemma Covered(g: Grid, b: Box)
    requires IsBox(g, b, 0, g.h)
    ensures forall x, y :: At(g, x, y).Some? ==> b.minX <= x <= b.maxX && b.minY <= y <= b.maxY
  {
  }

  lemma ShiftBack(a: Grid, b: Grid, dx: int, dy: int)
    requires Shifted(a, b, dx, dy)
    ensures Shifted(b, a, -dx, -dy)
  {
    hide At;
    forall x, y ensures At(b, x, y) == At(a, x - dx, y - dy) {
      assert At(a, x - dx, y - dy) == At(b, x - dx + dx, y - dy + dy);
    }
  }

  predicate InBox(b: Box, x: int, y: int) { b.minX <= x <= b.maxX && b.minY <= y <= b.maxY }

  // The key holds what the grid shows in the box.
  lemma KeyCellSpec(g: Grid, b: Box, i: int)
    requires IsBox(g, b, 0, g.h) && b.maxX != -1 && 0 <= i < 9
    ensures var x, y := b.minX + i % 3, b.minY + i / 3;
            KeyCell(g, b, i) == if InBox(b, x, y) then Shows(g, x, y) else EMPTY
  {
    BoxIsInside(g, b);
  }

  lemma ShowsItem(g: Grid, x: int, y: int)
    ensures At(g, x, y) == if Inside(g, x, y) && Shows(g, x, y).id != INVALID then Some(Shows(g, x, y)) else None
  {
  }

  // The box holds exactly what is enclosed.
  lemma BoxEncloses(g: Grid, b: Box, x: int, y: int)
    requires IsBox(g, b, 0, g.h) && b.maxX != -1
    ensures InBox(b, x, y) <==> Enclosed(g, x, y)
  {
    BoxIsInside(g, b);
    Covered(g, b);
    hide At;
    if InBox(b, x, y) {
      var y0 :| At(g, b.minX, y0).Some?;
      var y1 :| At(g, b.maxX, y1).Some?;
      var x0 :| At(g, x0, b.minY).Some?;
      var x1 :| At(g, x1, b.maxY).Some?;
      assert Enclosed(g, x, y);
    }
  }

  lemma BoxesShift(a: Grid, b: Grid, dx: int, dy: int, p: Box, q: Box)
    requires Shifted(a, b, dx, dy) && IsBox(a, p, 0, a.h) && IsBox(b, q, 0, b.h)
    ensures p.maxX == -1 <==> q.maxX == -1
    ensures p.maxX != -1 ==> q == Box(p.minX + dx, p.minY + dy, p.maxX + dx, p.maxY + dy)
  {
    hide *;
    BoxKinds(a, p);
    BoxKinds(b, q);
    ShiftBack(a, b, dx, dy);
    if p.maxX != -1 { ShiftedBox(a, b, dx, dy, p, q); }
    if q.maxX != -1 { ShiftedBox(b, a, -dx, -dy, q, p); }
  }

  lemma BoxKinds(g: Grid, b: Box)
    requires IsBox(g, b, 0, g.h)
    ensures if b.maxX == -1 then b == Box(3, 3, -1, -1)
            else Tight(g, b) && 0 <= b.minX <= b.maxX && 0 <= b.minY <= b.maxY
  {
    if b.maxX != -1 { BoxIsInside(g, b); }
  }

  lemma CellsAgree(a: Grid, b: Grid, dx: int, dy: int, p: Box, q: Box, i: int)
    requires Shifted(a, b, dx, dy) && GapsAgree(a, b, dx, dy) && 0 <= i < 9
    requires IsBox(a, p, 0, a.h) && IsBox(b, q, 0, b.h) && p.maxX != -1
    ensures KeyCell(a, p, i) == KeyCell(b, q, i)
  {
    hide *;
    BoxesShift(a, b, dx, dy, p, q);
    KeyCellSpec(a, p, i);
    KeyCellSpec(b, q, i);
    BoxEncloses(a, p, p.minX + i % 3, p.minY + i / 3);
    if InBox(p, p.minX + i % 3, p.minY + i / 3) {
      EnclosedShowAlike(a, b, dx, dy, p.minX + i % 3, p.minY + i / 3);
    }
    ShiftedInBox(p, q, dx, dy, p.minX + i % 3, p.minY + i / 3);
  }

  lemma ShiftedInBox(p: Box, q: Box, dx: int, dy: int, x: int, y: int)
    requires q == Box(p.minX + dx, p.minY + dy, p.maxX + dx, p.maxY + dy)
    ensures InBox(p, x, y) <==> InBox(q, x + dx, y + dy)
  {
  }

  // Enclosed cells, items or not, show alike.
  lemma EnclosedShowAlike(a: Grid, b: Grid, dx: int, dy: int, x: int, y: int)
    requires Shifted(a, b, dx, dy) && GapsAgree(a, b, dx, dy) && Enclosed(a, x, y)
    ensures Shows(a, x, y) == Shows(b, x + dx, y + dy)
  {
    assert At(a, x, y) == At(b, x + dx, y + dy);
    assert At(a, x, y).None? ==> Gap(a, x, y);
    hide Enclosed, Shows, At, Shifted;
    ShowsItem(a, x, y);
    ShowsItem(b, x + dx, y + dy);
  }

  lemma AlikeHaveOneKey(a: Grid, b: Grid, dx: int, dy: int, p: Box, q: Box)
    requires Shifted(a, b, dx, dy) && GapsAgree(a, b, dx, dy)
    requires IsBox(a, p, 0, a.h) && IsBox(b, q, 0, b.h)
    ensures KeyIn(a, p) == KeyIn(b, q)
  {
    BoxesShift(a, b, dx, dy, p, q);
    if p.maxX != -1 {
      hide IsBox, KeyCell, Shifted, GapsAgree;
      forall i | 0 <= i < 9 ensures KeyCell(a, p, i) == KeyCell(b, q, i) {
        CellsAgree(a, b, dx, dy, p, q, i);
      }
      assert KeyIn(a, p).cells == KeyIn(b, q).cells;
    }
  }

  lemma NothingToShow(g: Grid, b: Box)
    requires IsBox(g, b, 0, g.h) && b.maxX == -1
    ensures forall x, y :: At(g, x, y).None?
  {
    Covered(g, b);
    hide At;
  }

  lemma OneKeyMeansAlike(a: Grid, b: Grid, p: Box, q: Box) returns (dx: int, dy: int)
    requires IsBox(a, p, 0, a.h) && IsBox(b, q, 0, b.h) && KeyIn(a, p) == KeyIn(b, q)
    ensures Shifted(a, b, dx, dy) && GapsAgree(a, b, dx, dy)
  {
    hide *;
    if p.maxX == -1 {
      dx, dy := 0, 0;
      NoKeyMeansEmpty(a, b, p, q);
    } else {
      KeyWidths(a, b, p, q);
      dx, dy := q.minX - p.minX, q.minY - p.minY;
      forall x, y
        ensures At(a, x, y) == At(b, x + dx, y + dy) && (Gap(a, x, y) ==> Shows(a, x, y) == Shows(b, x + dx, y + dy))
      {
        SameCells(a, b, p, q, x, y);
      }
      ShiftedMeans(a, b, dx, dy);
    }
  }

  lemma ShiftedMeans(a: Grid, b: Grid, dx: int, dy: int)
    requires forall x, y ::
               At(a, x, y) == At(b, x + dx, y + dy) && (Gap(a, x, y) ==> Shows(a, x, y) == Shows(b, x + dx, y + dy))
    ensures Shifted(a, b, dx, dy) && GapsAgree(a, b, dx, dy)
  {
    hide At, Gap, Shows;
  }

  lemma NoKeyMeansEmpty(a: Grid, b: Grid, p: Box, q: Box)
    requires IsBox(a, p, 0, a.h) && IsBox(b, q, 0, b.h) && KeyIn(a, p) == KeyIn(b, q) && p.maxX == -1
    ensures Shifted(a, b, 0, 0) && GapsAgree(a, b, 0, 0)
  {
    assert q.maxX == -1 by { if q.maxX != -1 { BoxIsInside(b, q); } }
    NothingToShow(a, p);
    NothingToShow(b, q);
    NothingEnclosed(a);
    hide At, Gap;
  }

  lemma KeyWidths(a: Grid, b: Grid, p: Box, q: Box)
    requires IsBox(a, p, 0, a.h) && IsBox(b, q, 0, b.h) && KeyIn(a, p) == KeyIn(b, q) && p.maxX != -1
    ensures q.maxX != -1
  {
    BoxIsInside(a, p);
  }

  lemma SameKeyParts(a: Grid, b: Grid, p: Box, q: Box)
    requires p.maxX != -1 && q.maxX != -1 && KeyIn(a, p) == KeyIn(b, q)
    ensures p.maxX - p.minX == q.maxX - q.minX && p.maxY - p.minY == q.maxY - q.minY
    ensures forall i :: 0 <= i < 9 ==> KeyCell(a, p, i) == KeyCell(b, q, i)
  {
    hide KeyCell;
    var j, k := KeyIn(a, p), KeyIn(b, q);
    forall i | 0 <= i < 9 ensures KeyCell(a, p, i) == KeyCell(b, q, i) {
      assert j.cells[i] == KeyCell(a, p, i) && k.cells[i] == KeyCell(b, q, i);
    }
  }

  lemma SameCells(a: Grid, b: Grid, p: Box, q: Box, x: int, y: int)
    requires p.maxX != -1 && q.maxX != -1
    requires IsBox(a, p, 0, a.h) && IsBox(b, q, 0, b.h) && KeyIn(a, p) == KeyIn(b, q)
    ensures var x', y' := x + q.minX - p.minX, y + q.minY - p.minY;
            && At(a, x, y) == At(b, x', y')
            && (Gap(a, x, y) ==> Shows(a, x, y) == Shows(b, x', y'))
  {
    hide IsBox, Tight, KeyIn, KeyCell, At, Shows, Enclosed;
    SameKeyParts(a, b, p, q);
    Covered(a, p);
    Covered(b, q);
    BoxIsInside(a, p);
    BoxIsInside(b, q);
    BoxEncloses(a, p, x, y);
    var x', y' := x + q.minX - p.minX, y + q.minY - p.minY;
    if InBox(p, x, y) {
      var i := (y - p.minY) * 3 + (x - p.minX);
      assert i % 3 == x - p.minX && i / 3 == y - p.minY;
      KeyCellSpec(a, p, i);
      KeyCellSpec(b, q, i);
      ShowsItem(a, x, y);
      ShowsItem(b, x', y');
    }
  }

  // Two grids get the same shaped key if and only if one is the other moved, enclosed empty cells and
  // their metadata included.
  lemma SameKeyExactlyWhenAlike(a: Grid, b: Grid, j: ShapedKey, k: ShapedKey)
    requires IsKey(a, j) && IsKey(b, k)
    ensures j == k <==> Alike(a, b)
  {
    hide IsBox, KeyIn, Shifted, GapsAgree;
    var p :| IsBox(a, p, 0, a.h) && j == KeyIn(a, p);
    var q :| IsBox(b, q, 0, b.h) && k == KeyIn(b, q);
    if Alike(a, b) {
      var dx, dy :| Shifted(a, b, dx, dy) && GapsAgree(a, b, dx, dy);
      AlikeHaveOneKey(a, b, dx, dy, p, q);
    }
    if j == k {
      var dx, dy := OneKeyMeansAlike(a, b, p, q);
    }
  }

  // Translates get the same key exactly when the metadata of their enclosed empty cells agrees.
  lemma TranslatesHaveOneKeyExactly(a: Grid, b: Grid, dx: int, dy: int, j: ShapedKey, k: ShapedKey)
    requires Shifted(a, b, dx, dy) && IsKey(a, j) && IsKey(b, k)
    ensures j == k <==> GapsAgree(a, b, dx, dy)
  {
    hide IsBox, Enclosed, At, Shows;
    var p :| IsBox(a, p, 0, a.h) && j == KeyIn(a, p);
    var q :| IsBox(b, q, 0, b.h) && k == KeyIn(b, q);
    if GapsAgree(a, b, dx, dy) {
      AlikeHaveOneKey(a, b, dx, dy, p, q);
    }
    if j == k {
      BoxesShift(a, b, dx, dy, p, q);
      if p.maxX == -1 {
        NothingToShow(a, p);
        NothingEnclosed(a);
      } else {
        forall x, y | Gap(a, x, y) ensures Shows(a, x, y) == Shows(b, x + dx, y + dy) {
          SameCells(a, b, p, q, x, y);
        }
      }
    }
  }

  lemma NothingEnclosed(g: Grid)
    requires forall x, y :: At(g, x, y).None?
    ensures forall x, y :: !Gap(g, x, y)
  {
    hide At;
  }

  // Without stray metadata, being alike is being translates.
  lemma CleanTranslatesAreAlike(a: Grid, b: Grid)
    requires Clean(a) && Clean(b)
    ensures Alike(a, b) <==> Translates(a, b)
  {
    if Translates(a, b) {
      var dx, dy :| Shifted(a, b, dx, dy);
      hide Shifted;
      forall x, y | Gap(a, x, y) ensures Shows(a, x, y) == Shows(b, x + dx, y + dy) {
        CleanGap(a, b, dx, dy, x, y);
      }
    }
  }

  lemma CleanGap(a: Grid, b: Grid, dx: int, dy: int, x: int, y: int)
    requires Clean(a) && Clean(b) && Shifted(a, b, dx, dy) && Gap(a, x, y)
    ensures Shows(a, x, y) == EMPTY && Shows(b, x + dx, y + dy) == EMPTY
  {
    assert At(a, x, y).None? && At(b, x + dx, y + dy) == At(a, x, y);
    hide *;
    EmptyShows(a, x, y);
    EmptyShows(b, x + dx, y + dy);
  }

  lemma EmptyShows(g: Grid, x: int, y: int)
    requires Clean(g) && At(g, x, y).None?
    ensures Shows(g, x, y) == EMPTY
  {
    if Inside(g, x, y) { IndexInRange(g.w, g.h, x, y); }
  }

  // Grids without stray metadata get the same shaped key if and only if one is the other moved.
  lemma SameKeyExactlyWhenTranslates(a: Grid, b: Grid, j: ShapedKey, k: ShapedKey)
    requires Clean(a) && Clean(b) && IsKey(a, j) && IsKey(b, k)
    ensures j == k <==> Translates(a, b)
  {
    hide IsKey, Alike, Translates, Clean;
    SameKeyExactlyWhenAlike(a, b, j, k);
    CleanTranslatesAreAlike(a, b);
  }

  // So metadata left in an enclosed empty cell keeps translates apart.
  lemma StrayMetadataSplitsKeys(a: Grid, b: Grid, j: ShapedKey, k: ShapedKey)
    requires a == Layout(3, 1, [ItemKey(BLOCK_PLANKS, 0), EMPTY, ItemKey(BLOCK_PLANKS, 0)])
    requires b == Layout(3, 1, [ItemKey(BLOCK_PLANKS, 0), ItemKey(INVALID, 1), ItemKey(BLOCK_PLANKS, 0)])
    requires IsKey(a, j) && IsKey(b, k)
    ensures Translates(a, b) && j != k
  {
    assert a.cells[0].id != INVALID && a.cells[1].id == INVALID && a.cells[2].id != INVALID && b.cells[1].id == INVALID;
    hide *;
    StrayTranslates(a, b);
    StrayGap(a, b);
    TranslatesHaveOneKeyExactly(a, b, 0, 0, j, k);
  }

  lemma StrayTranslates(a: Grid, b: Grid)
    requires a.w == b.w == 3 && a.h == b.h == 1 && a.cells[1].id == INVALID && b.cells[1].id == INVALID
    requires a.cells[0] == b.cells[0] && a.cells[2] == b.cells[2]
    ensures Shifted(a, b, 0, 0) && Translates(a, b)
  {
    forall x, y ensures At(a, x, y) == At(b, x + 0, y + 0) {
      if Inside(a, x, y) { assert x == 0 || x == 1 || x == 2; }
    }
    hide At;
  }

  lemma StrayGap(a: Grid, b: Grid)
    requires a.w == b.w == 3 && a.h == b.h == 1 && a.cells[1] == EMPTY && b.cells[1] == ItemKey(INVALID, 1)
    requires a.cells[0].id != INVALID && a.cells[2].id != INVALID
    ensures !GapsAgree(a, b, 0, 0)
  {
    assert At(a, 0, 0).Some? && At(a, 2, 0).Some?;
    assert Shows(a, 1, 0) == EMPTY && Shows(b, 1 + 0, 0 + 0) == ItemKey(INVALID, 1) && At(a, 1, 0).None?;
    hide At, Shows;
    assert Gap(a, 1, 0);
  }
}
