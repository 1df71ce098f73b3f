// Shapeless recipe keys: the valid items, normalised and sorted, at most nine of them.
module ShapelessKeys {
  import opened Sequences
  import opened RecipeKeys
  import opened RecipeMirror

  datatype ShapelessKey = ShapelessKey(count: int, items: seq<ItemKey>)

  predicate IsValidId(id: int)
  {
    (INVALID < id < BLOCK_MAX) || (SHOVEL_IRON <= id < ITEM_MAX) || (RECORD_13 <= id < RECORD_MAX)
  }

  function ValidItems(q: seq<ItemKey>): seq<ItemKey>
  {
    if q == [] then []
    else
      var front, last := ValidItems(q[..|q| - 1]), q[|q| - 1];
      if IsValidId(last.id) then front + [Normalize(last)] else front
  }

  // A tenth valid item is dropped.
  function FirstNine(q: seq<ItemKey>): seq<ItemKey> { if |q| <= 9 then q else q[..9] }

  // The ids that count: blocks, items and records, and not the gaps between them.
  lemma ValidIdsExactly(id: int)
    ensures IsValidId(id) <==> 0 <= id <= 96 || 256 <= id <= 359 || id == 2256 || id == 2257
  {
  }

  function Counted(q: seq<ItemKey>): seq<ItemKey> { FirstNine(ValidItems(q)) }

  // ----- sorting -----

  predicate AtMost(a: ItemKey, b: ItemKey) { a.id < b.id || (a.id == b.id && a.data <= b.data) }

  predicate IsSorted(q: seq<ItemKey>) { forall i, j :: 0 <= i < j < |q| ==> AtMost(q[i], q[j]) }

  function InsertSorted(q: seq<ItemKey>, k: ItemKey): (r: seq<ItemKey>)
    ensures multiset(r) == multiset(q) + multiset{k} && |r| == |q| + 1
  {
    if q == [] then [k]
    else
      assert q == q[..|q| - 1] + [q[|q| - 1]];
      if AtMost(q[|q| - 1], k) then q + [k] else InsertSorted(q[..|q| - 1], k) + [q[|q| - 1]]
  }

  function Sort(q: seq<ItemKey>): (r: seq<ItemKey>)
    ensures multiset(r) == multiset(q) && |r| == |q|
  {
    if q == [] then []
    else
      assert q == q[..|q| - 1] + [q[|q| - 1]];
      InsertSorted(Sort(q[..|q| - 1]), q[|q| - 1])
  }

  lemma Members(q: seq<ItemKey>, x: ItemKey)
    ensures x in q <==> x in multiset(q)
  {
  }

  lemma {:induction false} InsertKeepsSorted(q: seq<ItemKey>, k: ItemKey)
    requires IsSorted(q)
    ensures IsSorted(InsertSorted(q, k))
    decreases |q|
  {
    if q != [] && !AtMost(q[|q| - 1], k) {
      var front, last := q[..|q| - 1], q[|q| - 1];
      InsertKeepsSorted(front, k);
      var r := InsertSorted(front, k);
      forall i | 0 <= i < |r| ensures AtMost(r[i], last) {
        Members(r, r[i]);
        Members(front, r[i]);
      }
      hide InsertSorted;
    }
  }

  lemma {:induction false} SortSorts(q: seq<ItemKey>)
    ensures IsSorted(Sort(q))
    decreases |q|
  {
    if q != [] {
      SortSorts(q[..|q| - 1]);
      InsertKeepsSorted(Sort(q[..|q| - 1]), q[|q| - 1]);
    }
  }

  lemma LastIsLargest(q: seq<ItemKey>, x: ItemKey)
    requires IsSorted(q) && x in multiset(q)
    ensures q != [] && AtMost(x, q[|q| - 1])
  {
    Members(q, x);
  }

  lemma WithoutLast(q: seq<ItemKey>)
    requires q != []
    ensures multiset(q[..|q| - 1]) == multiset(q) - multiset{q[|q| - 1]} && q == q[..|q| - 1] + [q[|q| - 1]]
  {
    assert q == q[..|q| - 1] + [q[|q| - 1]];
  }

  lemma {:induction false} SortedIsUnique(p: seq<ItemKey>, q: seq<ItemKey>)
    requires IsSorted(p) && IsSorted(q) && multiset(p) == multiset(q)
    ensures p == q
    decreases |p|
  {
    assert |p| == |multiset(p)| && |q| == |multiset(q)|;
    if p != [] {
      var n := |p| - 1;
      Members(p, p[n]);
      Members(q, q[n]);
      LastIsLargest(p, q[n]);
      LastIsLargest(q, p[n]);
      WithoutLast(p);
      WithoutLast(q);
      assert IsSorted(p[..n]) && IsSorted(q[..n]);
      hide IsSorted;
      SortedIsUnique(p[..n], q[..n]);
    }
  }

  // ----- the key -----

  function Padding(n: int): (r: seq<ItemKey>)
    ensures |r| == if n <= 0 then 0 else n
    ensures forall i :: 0 <= i < |r| ==> r[i] == EMPTY
  {
    if n <= 0 then [] else Padding(n - 1) + [EMPTY]
  }

  function ShapelessKeyOf(q: seq<ItemKey>): ShapelessKey
  {
    var c := Counted(q);
    ShapelessKey(|c|, Sort(c) + Padding(9 - |c|))
  }

  method MakeShapelessKey(items: seq<ItemKey>) returns (key: ShapelessKey)
    ensures key == ShapelessKeyOf(items)
  {
    var found: seq<ItemKey> := [];
    var n := 0;
    hide Sort, Padding, IsValidId, Normalize;
    while n < |items|
      invariant 0 <= n <= |items| && found == Counted(items[..n])
    {
      CountedGrows(items, n);
      hide Counted;
      if IsValidId(items[n].id) {
        if |found| >= 9 {
          NineAreEnough(items, n);
          break;
        }
        found := found + [Normalize(items[n])];
      }
      n := n + 1;
    }
    assert items[..|items|] == items;
    hide Counted;
    key := ShapelessKey(|found|, Sort(found) + Padding(9 - |found|));
  }

  lemma CountedGrows(q: seq<ItemKey>, n: nat)
    requires n < |q|
    ensures |Counted(q[..n])| <= 9
    ensures Counted(q[..n + 1]) == Counted(q[..n]) +
            if IsValidId(q[n].id) && |Counted(q[..n])| < 9 then [Normalize(q[n])] else []
  {
    assert q[..n + 1][..n] == q[..n];
  }

  lemma {:induction false} NineAreEnough(q: seq<ItemKey>, n: nat)
    requires n <= |q| && |Counted(q[..n])| == 9
    ensures Counted(q) == Counted(q[..n])
    decreases |q| - n
  {
    if n < |q| {
      CountedGrows(q, n);
      NineAreEnough(q, n + 1);
    } else {
      assert q[..n] == q;
    }
  }

  // Two lists get the same shapeless key if and only if the same valid items, as recipes see them, count
  // in both, however often and in whatever order.
  lemma SameKeyExactlyWhenPermuted(p: seq<ItemKey>, q: seq<ItemKey>)
    ensures ShapelessKeyOf(p) == ShapelessKeyOf(q) <==> multiset(Counted(p)) == multiset(Counted(q))
  {
    var a, b := Counted(p), Counted(q);
    var j, k := ShapelessKeyOf(p), ShapelessKeyOf(q);
    if j == k {
      assert Sort(a) == j.items[..|a|] && Sort(b) == k.items[..|b|];
    }
    if multiset(a) == multiset(b) {
      SortSorts(a);
      SortSorts(b);
      SortedIsUnique(Sort(a), Sort(b));
      assert |Sort(a)| == |Sort(b)|;
    }
  }

  lemma {:induction false} PermutedItemsAreValidAlike(p: seq<ItemKey>, q: seq<ItemKey>)
    requires multiset(p) == multiset(q)
    ensures multiset(ValidItems(p)) == multiset(ValidItems(q)) && |ValidItems(p)| == |ValidItems(q)|
    decreases |p|
  {
    assert |p| == |multiset(p)| && |q| == |multiset(q)|;
    if p != [] {
      var last := p[|p| - 1];
      assert last in multiset(q);
      var i :| 0 <= i < |q| && q[i] == last;
      var rest := q[..i] + q[i + 1..];
      assert q == q[..i] + [last] + q[i + 1..];
      assert p == p[..|p| - 1] + [last];
      assert multiset(rest) == multiset(q) - multiset{last};
      assert multiset(p[..|p| - 1]) == multiset(p) - multiset{last};
      PermutedItemsAreValidAlike(p[..|p| - 1], rest);
      ValidItemsWithout(q, i);
      ValidItemsOfLast(p);
      assert |multiset(ValidItems(p))| == |ValidItems(p)| && |multiset(ValidItems(q))| == |ValidItems(q)|;
    }
  }

  ghost function Bag(k: ItemKey): multiset<ItemKey> { if IsValidId(k.id) then multiset{Normalize(k)} else multiset{} }

  lemma ValidItemsOfLast(q: seq<ItemKey>)
    requires q != []
    ensures multiset(ValidItems(q)) == multiset(ValidItems(q[..|q| - 1])) + Bag(q[|q| - 1])
  {
  }

  lemma {:induction false} ValidItemsWithout(q: seq<ItemKey>, i: nat)
    requires i < |q|
    ensures multiset(ValidItems(q)) == multiset(ValidItems(q[..i] + q[i + 1..])) + Bag(q[i])
    decreases |q|
  {
    hide ValidItems, Bag;
    var n := |q| - 1;
    var rest := q[..i] + q[i + 1..];
    ValidItemsOfLast(q);
    if i < n {
      ValidItemsWithout(q[..n], i);
      assert q[..n][..i] + q[..n][i + 1..] == rest[..n - 1];
      ValidItemsOfLast(rest);
    } else {
      assert rest == q[..n];
    }
  }

  // Up to nine cells, mirrored or permuted otherwise, have one shapeless key.
  lemma PermutedGridsHaveOneKey(p: seq<ItemKey>, q: seq<ItemKey>)
    requires multiset(p) == multiset(q) && |p| <= 9
    ensures ShapelessKeyOf(p) == ShapelessKeyOf(q)
  {
    assert |p| == |multiset(p)| && |q| == |multiset(q)|;
    FewValidItems(p);
    PermutedItemsAreValidAlike(p, q);
    SameKeyExactlyWhenPermuted(p, q);
  }

  lemma {:induction false} FewValidItems(q: seq<ItemKey>)
    ensures |ValidItems(q)| <= |q|
    decreases |q|
  {
    if q != [] { FewValidItems(q[..|q| - 1]); }
  }
}
