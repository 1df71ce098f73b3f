// The recipe manager: two maps from canonical keys to outputs, filled by adding recipes and asked with
// the contents of a crafting grid.
module Recipes {
  import opened Sequences
  import opened RecipeKeys
  import opened RecipeMirror
  import opened ShapelessKeys

  datatype ItemStack = ItemStack(id: int, count: int, data: int)

  const NOTHING := ItemStack(INVALID, 0, 0)

  datatype Shaped = Shaped(grid: Grid, output: ItemStack)

  datatype Shapeless = Shapeless(items: seq<ItemKey>, output: ItemStack)

  // The last recipe added whose pattern is g moved, enclosed empty cells included.
  ghost function LastShaped(rs: seq<Shaped>, g: Grid): Option<ItemStack>
  {
    if rs == [] then None
    else if Alike(rs[|rs| - 1].grid, g) then Some(rs[|rs| - 1].output)
    else LastShaped(rs[..|rs| - 1], g)
  }

  // The last recipe added that lists the same items.
  ghost function LastShapeless(rs: seq<Shapeless>, items: seq<ItemKey>): Option<ItemStack>
  {
    if rs == [] then None
    else if multiset(Counted(rs[|rs| - 1].items)) == multiset(Counted(items)) then Some(rs[|rs| - 1].output)
    else LastShapeless(rs[..|rs| - 1], items)
  }

  // What a crafting grid makes.
  ghost function Result(shaped: seq<Shaped>, shapeless: seq<Shapeless>, g: Grid): ItemStack
  {
    var plain, mirrored := LastShaped(shaped, g), LastShaped(shaped, Mirrored(g));
    if plain.Some? then plain.value
    else if mirrored.Some? then mirrored.value
    else var loose := LastShapeless(shapeless, g.cells); if loose.Some? then loose.value else NOTHING
  }

  ghost predicate ShapedAgrees(m: map<ShapedKey, ItemStack>, rs: seq<Shaped>)
  {
    forall g: Grid, k :: IsKey(g, k) ==> (if k in m then LastShaped(rs, g) == Some(m[k]) else LastShaped(rs, g) == None)
  }

  ghost predicate ShapelessAgrees(m: map<ShapelessKey, ItemStack>, rs: seq<Shapeless>)
  {
    forall items :: var k := ShapelessKeyOf(items);
      if k in m then LastShapeless(rs, items) == Some(m[k]) else LastShapeless(rs, items) == None
  }

  lemma AddShapedAgrees(m: map<ShapedKey, ItemStack>, rs: seq<Shaped>, g: Grid, k: ShapedKey, output: ItemStack)
    requires ShapedAgrees(m, rs) && IsKey(g, k)
    ensures ShapedAgrees(m[k := output], rs + [Shaped(g, output)])
  {
    var rs' := rs + [Shaped(g, output)];
    assert rs'[..|rs|] == rs;
    forall h: Grid, j | IsKey(h, j)
      ensures if j in m[k := output] then LastShaped(rs', h) == Some(m[k := output][j]) else LastShaped(rs', h) == None
    {
      SameKeyExactlyWhenAlike(g, h, k, j);
      hide Alike, IsKey;
    }
  }

  lemma AddShapelessAgrees(m: map<ShapelessKey, ItemStack>, rs: seq<Shapeless>, items: seq<ItemKey>, output: ItemStack)
    requires ShapelessAgrees(m, rs)
    ensures ShapelessAgrees(m[ShapelessKeyOf(items) := output], rs + [Shapeless(items, output)])
  {
    var rs' := rs + [Shapeless(items, output)];
    assert rs'[..|rs|] == rs;
    hide ShapelessKeyOf, Counted;
    forall q ensures var j := ShapelessKeyOf(q); var m' := m[ShapelessKeyOf(items) := output];
                     if j in m' then LastShapeless(rs', q) == Some(m'[j]) else LastShapeless(rs', q) == None
    {
      SameKeyExactlyWhenPermuted(items, q);
    }
  }

  // ----- patterns -----

  // The last mapping of the symbol, as in the loop that looks through all of them.
  function Lookup(mapping: seq<(char, ItemKey)>, c: char): ItemKey
  {
    if mapping == [] then EMPTY
    else if mapping[|mapping| - 1].0 == c then mapping[|mapping| - 1].1
    else Lookup(mapping[..|mapping| - 1], c)
  }

  // Cell i of a three by three pattern; rows and columns beyond the third are skipped.
  function PatternCell(rows: seq<string>, mapping: seq<(char, ItemKey)>, i: nat): ItemKey
  {
    var x, y := i % 3, i / 3;
    if y < |rows| && x < |rows[y]| && rows[y][x] != ' ' then Lookup(mapping, rows[y][x]) else EMPTY
  }

  // Every symbol shown is mapped to an item.
  predicate AllMapped(rows: seq<string>, mapping: seq<(char, ItemKey)>)
  {
    forall y, x :: 0 <= y < |rows| && y < 3 && 0 <= x < |rows[y]| && x < 3 && rows[y][x] != ' ' ==>
      Lookup(mapping, rows[y][x]).id != INVALID
  }

  function Pattern(rows: seq<string>, mapping: seq<(char, ItemKey)>): Grid
  {
    Layout(3, 3, seq(9, i requires 0 <= i < 9 => PatternCell(rows, mapping, i)))
  }

  // The last pair of a mapping that has the symbol counts.
  lemma {:induction false} LookupExactly(mapping: seq<(char, ItemKey)>, c: char)
    ensures forall k :: IsLast(mapping, c, k) ==> Lookup(mapping, c) == mapping[k].1
    ensures (forall k :: 0 <= k < |mapping| ==> mapping[k].0 != c) ==> Lookup(mapping, c) == ItemKey(-1, 0)
    decreases |mapping|
  {
    if mapping != [] {
      var front := mapping[..|mapping| - 1];
      LookupExactly(front, c);
      forall k | IsLast(mapping, c, k) ensures Lookup(mapping, c) == mapping[k].1 {
        if k < |front| {
          assert IsLast(front, c, k) && front[k] == mapping[k];
        }
      }
    }
  }

  predicate IsLast(mapping: seq<(char, ItemKey)>, c: char, k: int)
  {
    0 <= k < |mapping| && mapping[k].0 == c && forall j :: k < j < |mapping| ==> mapping[j].0 != c
  }

  // The cell in column x of row y of a pattern is what the character there stands for; a space, and what is
  // missing of three rows of three, is an empty cell.
  lemma PatternExactly(rows: seq<string>, mapping: seq<(char, ItemKey)>, x: int, y: int)
    requires 0 <= x < 3 && 0 <= y < 3
    ensures var g := Pattern(rows, mapping);
            && g.w == 3 && g.h == 3 && |g.cells| == 9
            && g.cells[3 * y + x] ==
                 if y < |rows| && x < |rows[y]| && rows[y][x] != ' ' then Lookup(mapping, rows[y][x])
                 else ItemKey(-1, 0)
  {
  }

  method FindSymbol(mapping: seq<(char, ItemKey)>, c: char) returns (item: ItemKey)
    ensures item == Lookup(mapping, c)
  {
    item := EMPTY;
    var n := 0;
    while n < |mapping|
      invariant 0 <= n <= |mapping| && item == Lookup(mapping[..n], c)
    {
      assert mapping[..n + 1][..n] == mapping[..n];
      if mapping[n].0 == c {
        item := mapping[n].1;
      }
      n := n + 1;
    }
    assert mapping[..n] == mapping;
  }

  ghost predicate FilledTo(rows: seq<string>, mapping: seq<(char, ItemKey)>, grid: seq<ItemKey>, y: int, x: int)
  {
    && |grid| == 9
    && (forall i :: 0 <= i < 9 ==>
          grid[i] == if i / 3 < y || (i / 3 == y && i % 3 < x) then PatternCell(rows, mapping, i) else EMPTY)
    && (forall v, u ::
          && 0 <= v < |rows| && v < 3 && 0 <= u < |rows[v]| && u < 3
          && (v < y || (v == y && u < x)) && rows[v][u] != ' '
          ==> Lookup(mapping, rows[v][u]).id != INVALID)
  }

  // One row of a pattern; nothing when a symbol is not mapped.
  method FillRow(rows: seq<string>, mapping: seq<(char, ItemKey)>, grid0: seq<ItemKey>, y: nat)
    returns (grid: seq<ItemKey>, known: bool)
    requires y < |rows| && y < 3 && FilledTo(rows, mapping, grid0, y, 0)
    ensures known ==> FilledTo(rows, mapping, grid, y + 1, 0)
    ensures !known ==> !AllMapped(rows, mapping)
  {
    grid, known := grid0, true;
    var row := if |rows[y]| > 3 then rows[y][..3] else rows[y];
    var x := 0;
    while x < |row|
      invariant 0 <= x <= |row| && FilledTo(rows, mapping, grid, y, x)
    {
      if row[x] != ' ' {
        var item := FindSymbol(mapping, row[x]);
        if item.id == INVALID {
          assert rows[y][x] == row[x];
          return grid, false;
        }
        grid := grid[y * 3 + x := item];
      }
      x := x + 1;
    }
  }

  method FillGrid(rows: seq<string>, mapping: seq<(char, ItemKey)>) returns (grid: Grid, known: bool)
    ensures known == AllMapped(rows, mapping) && (known ==> grid == Pattern(rows, mapping))
  {
    var cells := NO_CELLS;
    known := true;
    grid := Layout(3, 3, cells);
    var y := 0;
    while y < |rows| && y < 3
      invariant 0 <= y <= |rows| && y <= 3 && FilledTo(rows, mapping, cells, y, 0)
    {
      hide FilledTo, AllMapped;
      cells, known := FillRow(rows, mapping, cells, y);
      if !known {
        return;
      }
      y := y + 1;
    }
    AllFilled(rows, mapping, cells, y);
    grid, known := Layout(3, 3, cells), true;
  }

  class RecipeManager {
    var shapedRecipes: map<ShapedKey, ItemStack>
    var shapelessRecipes: map<ShapelessKey, ItemStack>
    // The recipes added, in order.
    ghost var shaped: seq<Shaped>
    ghost var shapeless: seq<Shapeless>

    ghost predicate Valid()
      reads this
    {
      ShapedAgrees(shapedRecipes, shaped) && ShapelessAgrees(shapelessRecipes, shapeless)
    }

    constructor ()
      ensures Valid() && shaped == [] && shapeless == []
    {
      shapedRecipes, shapelessRecipes, shaped, shapeless := map[], map[], [], [];
    }

    method AddShapelessRecipe(items: seq<ItemKey>, output: ItemStack)
      requires Valid()
      modifies this
      ensures Valid() && shaped == old(shaped) && shapeless == old(shapeless) + [Shapeless(items, output)]
    {
      var key := MakeShapelessKey(items);
      AddShapelessAgrees(shapelessRecipes, shapeless, items, output);
      shapelessRecipes := shapelessRecipes[key := output];
      shapeless := shapeless + [Shapeless(items, output)];
    }

    // A recipe with a symbol that is not mapped is left out.
    method AddShapedRecipe(rows: seq<string>, mapping: seq<(char, ItemKey)>, output: ItemStack)
      requires Valid()
      modifies this
      ensures Valid() && shapeless == old(shapeless)
      ensures shaped == old(shaped) + if AllMapped(rows, mapping) then [Shaped(Pattern(rows, mapping), output)] else []
    {
      var grid, known := FillGrid(rows, mapping);
      if !known {
        return;
      }
      hide AllMapped, Pattern, ShapedAgrees, ShapelessAgrees, IsKey;
      var key := MakeShapedKey(grid);
      AddShapedAgrees(shapedRecipes, shaped, grid, key, output);
      shapedRecipes := shapedRecipes[key := output];
      shaped := shaped + [Shaped(grid, output)];
    }

    // A grid makes what the last shaped recipe that is alike makes, else the last that is alike its
    // mirror image, else the last shapeless recipe of the same items, else nothing.
    method MatchGrid(slots: seq<ItemStack>, w: nat, h: nat) returns (r: ItemStack)
      requires Valid() && Fits(w, h, |slots|)
      ensures r == Result(shaped, shapeless, GridOf(slots, w, h))
    {
      var keyGrid := KeysOf(slots, w, h);
      ghost var g := GridOf(slots, w, h);
      hide ShapedAgrees, ShapelessAgrees, Mirrored, LastShaped, LastShapeless, GridOf, Valid;
      var found := FindShaped(Layout(w, h, keyGrid[..]));
      if found.Some? {
        return found.value;
      }
      MirrorGrid(keyGrid, w, h);
      found := FindShaped(Layout(w, h, keyGrid[..]));
      if found.Some? {
        return found.value;
      }
      found := FindShapeless(keyGrid[..], g.cells);
      if found.Some? {
        return found.value;
      }
      return NOTHING;
    }

    method FindShaped(g: Grid) returns (found: Option<ItemStack>)
      requires Valid()
      ensures found == LastShaped(shaped, g)
    {
      hide IsKey, LastShaped;
      var key := MakeShapedKey(g);
      found := if key in shapedRecipes then Some(shapedRecipes[key]) else None;
    }

    // The lookup sees the mirrored cells, which makes no difference.
    method FindShapeless(cells: seq<ItemKey>, ghost original: seq<ItemKey>) returns (found: Option<ItemStack>)
      requires Valid() && multiset(cells) == multiset(original) && |cells| <= 9
      ensures found == LastShapeless(shapeless, original)
    {
      PermutedGridsHaveOneKey(cells, original);
      hide LastShapeless;
      var key := MakeShapelessKey(cells);
      assert key == ShapelessKeyOf(original);
      found := if key in shapelessRecipes then Some(shapelessRecipes[key]) else None;
    }
  }

  lemma AllFilled(rows: seq<string>, mapping: seq<(char, ItemKey)>, grid: seq<ItemKey>, y: int)
    requires FilledTo(rows, mapping, grid, y, 0) && 0 <= y && (y == |rows| || y == 3)
    ensures AllMapped(rows, mapping) && Layout(3, 3, grid) == Pattern(rows, mapping)
  {
    assert grid == Pattern(rows, mapping).cells;
  }

  function GridOf(slots: seq<ItemStack>, w: nat, h: nat): (g: Grid)
    requires Fits(w, h, |slots|)
  {
    Layout(w, h, seq(w * h, i requires 0 <= i < w * h => ItemKey(slots[i].id, slots[i].data)))
  }

  method KeysOf(slots: seq<ItemStack>, w: nat, h: nat) returns (a: array<ItemKey>)
    requires Fits(w, h, |slots|)
    ensures fresh(a) && a[..] == GridOf(slots, w, h).cells && |a[..]| <= 9
  {
    a := new ItemKey[|slots|](i requires 0 <= i < |slots| => ItemKey(slots[i].id, slots[i].data));
  }

  // Patterns are clean, so for slots without stray metadata the pattern is simply looked for anywhere.
  lemma CleanSlotsMatchTranslates(rows: seq<string>, mapping: seq<(char, ItemKey)>, g: Grid)
    requires AllMapped(rows, mapping) && Clean(g)
    ensures Alike(Pattern(rows, mapping), g) <==> Translates(Pattern(rows, mapping), g)
  {
    PatternIsClean(rows, mapping);
    hide AllMapped, Pattern, Clean, Alike, Translates;
    CleanTranslatesAreAlike(Pattern(rows, mapping), g);
  }

  lemma PatternIsClean(rows: seq<string>, mapping: seq<(char, ItemKey)>)
    requires AllMapped(rows, mapping)
    ensures Clean(Pattern(rows, mapping))
  {
    forall i | 0 <= i < 9 ensures PatternCell(rows, mapping, i).id != INVALID
      || PatternCell(rows, mapping, i) == EMPTY {
      var x, y := i % 3, i / 3;
      if y < |rows| && x < |rows[y]| && rows[y][x] != ' ' {
        assert Lookup(mapping, rows[y][x]).id != INVALID;
      }
    }
  }
}
