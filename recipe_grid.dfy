/** The ingredient projection at the top of the `RecipeGrid` composable:
    a recipe's sparse (item, position) list is expanded into the dense
    nine-slot list that the 3x3 grid renders, one slot per position 1..9. */
module HomeView {
  import opened Wrappers
  import opened Entities

  /** Number of cells in the crafting grid (3 x 3). */
  const GridSize := 9

  /** No ingredient of `items` sits at position `i`. */
  predicate Absent(items: seq<Ingredient>, i: int)
  {
    forall k :: 0 <= k < |items| ==> items[k].1 != i
  }

  /** `k` is the earliest index of `items` whose position is `i`. */
  predicate FirstAt(items: seq<Ingredient>, i: int, k: int)
  {
    0 <= k < |items| && items[k].1 == i && forall j :: 0 <= j < k ==> items[j].1 != i
  }

  /** Kotlin's `List.find { v -> v.second == i }`: scans from the front and
      yields the first ingredient at position `i`, or nothing. */
  function Find(items: seq<Ingredient>, i: int): (r: Option<Ingredient>)
    ensures r.None? <==> Absent(items, i)
    ensures r.Some? ==> exists k :: FirstAt(items, i, k) && items[k] == r.value
  {
    if |items| == 0 then None
    else if items[0].1 == i then Some(items[0])
    else
      Find(items[1..], i)
  }

  /** One slot of the grid: `find(...) ?: Pair(Item.AIR, i)`. */
  function Slot(items: seq<Ingredient>, i: int): (r: Ingredient)
    ensures r.1 == i
    ensures Absent(items, i) ==> r == (AIR, i)
    ensures forall k :: FirstAt(items, i, k) ==> r == items[k]
  {
    match Find(items, i)
    case Some(p) => p
    case None => (AIR, i)
  }

  /** The slot at grid index `k`, which holds position `k + 1`. */
  function SlotAt(items: seq<Ingredient>, k: int): (r: Ingredient)
    ensures r.1 == k + 1
  {
    Slot(items, k + 1)
  }

  /** A dense grid: nine slots, slot index `k` carrying position `k + 1`. */
  predicate IsGrid(g: seq<Ingredient>)
  {
    |g| == GridSize && forall k :: 0 <= k < |g| ==> g[k].1 == k + 1
  }

  /** The projected grid of a recipe's ingredient list, slot by slot. */
  function Projection(items: seq<Ingredient>): (g: seq<Ingredient>)
    ensures IsGrid(g)
  {
    seq(GridSize, k => SlotAt(items, k))
  }

  /** The `for (i in 1..9)` loop that fills the `ingredients` ArrayList. */
  method RecipeIngredients(recipe: Recipe) returns (ingredients: seq<Ingredient>)
    ensures ingredients == Projection(recipe.items)
  {
    ingredients := [];
    ghost var grid := Projection(recipe.items);
    for i := 1 to GridSize + 1
      invariant ingredients == grid[..i - 1]
    {
      var (item, pos) := Slot(recipe.items, i);
      ingredients := ingredients + [(item, pos)];
    }
    assert grid[..GridSize] == grid;
  }

  /** What each slot holds: its own position, AIR when no ingredient claims
      that position, otherwise the earliest ingredient that does. */
  lemma ProjectionSlot(items: seq<Ingredient>, i: int)
    requires 1 <= i <= GridSize
    ensures |Projection(items)| == GridSize
    ensures Projection(items)[i - 1].1 == i
    ensures Absent(items, i) <==> Projection(items)[i - 1] == (AIR, i) && (AIR, i) !in items
    ensures forall k :: FirstAt(items, i, k) ==> Projection(items)[i - 1] == items[k]
  {
    if !Absent(items, i) {
      var k :| 0 <= k < |items| && items[k].1 == i;
      assert items[k] in items;
    }
  }

  /** The `key = { c -> c.second }` of the grid is unique: slot positions
      run 1, 2, ..., 9 in strictly ascending order. */
  lemma ProjectionKeysAscending(items: seq<Ingredient>)
    ensures forall a, b :: 0 <= a < b < |Projection(items)| ==>
      Projection(items)[a].1 < Projection(items)[b].1
  {
  }

  /** Ingredients placed outside positions 1..9 never reach the grid. */
  lemma OffGridNotShown(items: seq<Ingredient>, p: Ingredient)
    requires p in items && !(1 <= p.1 <= GridSize)
    ensures p !in Projection(items)
  {
  }

  /** The ingredients of `items` whose position lies on the grid, in order. */
  function OnGrid(items: seq<Ingredient>): (r: seq<Ingredient>)
    ensures forall p :: p in r <==> p in items && 1 <= p.1 <= GridSize
    ensures |r| <= |items|
  {
    if |items| == 0 then []
    else if 1 <= items[0].1 <= GridSize then [items[0]] + OnGrid(items[1..])
    else OnGrid(items[1..])
  }

  /** For a position on the grid, `find` ignores the off-grid ingredients. */
  lemma {:induction false} FindOnGrid(items: seq<Ingredient>, i: int)
    requires 1 <= i <= GridSize
    ensures Find(OnGrid(items), i) == Find(items, i)
  {
    if |items| > 0 {
      FindOnGrid(items[1..], i);
      if 1 <= items[0].1 <= GridSize {
        assert ([items[0]] + OnGrid(items[1..]))[1..] == OnGrid(items[1..]);
      }
    }
  }

  /** Dropping every off-grid ingredient leaves the projection unchanged. */
  lemma OffGridIgnored(items: seq<Ingredient>)
    ensures Projection(OnGrid(items)) == Projection(items)
  {
    forall i | 1 <= i <= GridSize
      ensures Slot(OnGrid(items), i) == Slot(items, i)
    {
      FindOnGrid(items, i);
    }
  }

  /** The grid of an empty recipe: nine AIR slots. */
  function EmptyGrid(): (g: seq<Ingredient>)
  {
    seq(GridSize, k => (AIR, k + 1))
  }

  /** An empty ingredient list projects to nine AIR slots. */
  lemma EmptyRecipeProjection()
    ensures Projection([]) == EmptyGrid()
  {
    assert forall k :: 0 <= k < GridSize ==> Projection([])[k] == (AIR, k + 1);
  }

  /** A dense grid is its own projection: in `g`, position `i` is first met
      at index `i - 1`. */
  lemma GridProjection(g: seq<Ingredient>)
    requires IsGrid(g)
    ensures Projection(g) == g
  {
    forall k | 0 <= k < GridSize
      ensures Projection(g)[k] == g[k]
    {
      assert FirstAt(g, k + 1, k);
    }
  }

  /** Projecting an already projected grid gives it back. */
  lemma ProjectionIdempotent(items: seq<Ingredient>)
    ensures Projection(Projection(items)) == Projection(items)
  {
    GridProjection(Projection(items));
  }

  /** No two ingredients share a position. */
  predicate UniquePositions(items: seq<Ingredient>)
  {
    forall j, k :: 0 <= j < k < |items| ==> items[j].1 != items[k].1
  }

  /** With unique positions, the ingredient found at a position is the
      only one there. */
  lemma FindUnique(items: seq<Ingredient>, p: Ingredient)
    requires UniquePositions(items) && p in items
    ensures Find(items, p.1) == Some(p)
  {
    var m :| 0 <= m < |items| && items[m] == p;
    assert !Absent(items, p.1);
    var r := Find(items, p.1);
    var k :| FirstAt(items, p.1, k) && items[k] == r.value;
    assert 0 <= k < |items| && items[k].1 == p.1;
    assert !(m < k);
    assert !(k < m);
  }

  /** When positions are unique, reordering the ingredient list does not
      change the grid. */
  lemma ProjectionOrderIndependent(items: seq<Ingredient>, reordered: seq<Ingredient>)
    requires UniquePositions(items)
    requires multiset(items) == multiset(reordered)
    ensures Projection(reordered) == Projection(items)
  {
    forall i | 1 <= i <= GridSize
      ensures Slot(reordered, i) == Slot(items, i)
    {
      match Find(reordered, i)
      case None =>
        forall k | 0 <= k < |items|
          ensures items[k].1 != i
        {
          assert items[k] in multiset(reordered);
        }
      case Some(q) =>
        var k :| FirstAt(reordered, i, k) && reordered[k] == q;
        assert q in multiset(items);
        FindUnique(items, q);
    }
  }

  /** A recipe with wheat at position 1 and sugar cane at position 5. */
  lemma TwoIngredientExample()
    ensures Projection([(Named("WHEAT"), 1), (Named("SUGAR_CANE"), 5)]) ==
      [(Named("WHEAT"), 1), (AIR, 2), (AIR, 3), (AIR, 4), (Named("SUGAR_CANE"), 5),
       (AIR, 6), (AIR, 7), (AIR, 8), (AIR, 9)]
  {
    var items := [(Named("WHEAT"), 1), (Named("SUGAR_CANE"), 5)];
    assert FirstAt(items, 1, 0) && FirstAt(items, 5, 1);
  }
}
