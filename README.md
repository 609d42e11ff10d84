# PokePC recipe grid — ingredient projection

PokePC is a Minecraft-themed crafting game whose home screen shows recipe
cards. Each card draws a 3×3 crafting grid. A recipe stores only a sparse list
of `(Item, position)` pairs. Before drawing, the `RecipeGrid` composable
expands that list into a dense nine-slot list. It walks positions 1 to 9. For
each position it takes the first pair placed there (Kotlin `find`), or
`(Item.AIR, i)` when none is. It appends the result to an `ArrayList`.

This project models that projection:

- `entities.dfy`: `Item` with the `AIR` sentinel, an ingredient `(Item, int)`
  and a `Recipe` (its result item and its ingredient list), plus `Option`.
- `recipe_grid.dfy` (module `HomeView`):
  - `Find` models Kotlin's first-match `find`.
  - `Slot` models the `?: Pair(Item.AIR, i)` fallback.
  - `Projection` is the dense grid as a specification function.
  - `RecipeIngredients` is the `for (i in 1..9)` loop that appends to the list.
    It is proved equal to `Projection`.
  - The lemmas state the grid's properties.

Duplicate positions are not rejected, and neither are positions outside
1..9. The model keeps the code's behaviour: the first match wins and off-grid
entries are ignored. Rejecting such data would change what the grid shows;
the code does not reject it.

## Model

| member | source | states |
|---|---|---|
| HomeView.Find | app/src/main/java/com/jezerm/pokepc/navigation/HomeView.kt:43 | `find` returns nothing exactly when no ingredient has position `i`; otherwise it returns the ingredient at the earliest index whose position is `i` |
| HomeView.Slot | app/src/main/java/com/jezerm/pokepc/navigation/HomeView.kt:43 | the slot for position `i` always carries position `i`; it is `(AIR, i)` when no ingredient is at `i`, and otherwise the first ingredient at `i` |
| HomeView.Projection | app/src/main/java/com/jezerm/pokepc/navigation/HomeView.kt:40-45 | the projected list is a grid: exactly 9 entries, with entry `k` carrying position `k + 1` |
| HomeView.RecipeIngredients | app/src/main/java/com/jezerm/pokepc/navigation/HomeView.kt:40-45 | the loop over `1..9` that appends to `ingredients` builds exactly the projected grid of `recipe.items` |
| HomeView.ProjectionSlot | app/src/main/java/com/jezerm/pokepc/navigation/HomeView.kt:42-45 | slot `i - 1` has position `i`; slot `i - 1` is `(AIR, i)` and `(AIR, i)` is not listed exactly when no ingredient has position `i`; otherwise it is the earliest ingredient at `i`, so with duplicate positions the first match wins |
| HomeView.ProjectionKeysAscending | app/src/main/java/com/jezerm/pokepc/navigation/HomeView.kt:56 | the grid keys `c.second` run strictly ascending, so they are pairwise distinct as the lazy grid's `key` requires |
| HomeView.OffGridNotShown | app/src/main/java/com/jezerm/pokepc/navigation/HomeView.kt:42-43 | an ingredient whose position is outside 1..9 never appears in the grid |
| HomeView.OnGrid | app/src/main/java/com/jezerm/pokepc/navigation/HomeView.kt:42-43 | keeps exactly the ingredients whose position lies in 1..9 |
| HomeView.FindOnGrid | app/src/main/java/com/jezerm/pokepc/navigation/HomeView.kt:43 | for a position in 1..9, `find` gives the same answer with or without the off-grid ingredients |
| HomeView.OffGridIgnored | app/src/main/java/com/jezerm/pokepc/navigation/HomeView.kt:42-45 | dropping every off-grid ingredient leaves the grid unchanged |
| HomeView.EmptyRecipeProjection | app/src/main/java/com/jezerm/pokepc/navigation/HomeView.kt:42-45 | an empty ingredient list gives nine `(AIR, i)` slots for `i = 1..9` |
| HomeView.GridProjection | app/src/main/java/com/jezerm/pokepc/navigation/HomeView.kt:42-45 | a dense nine-slot list whose slot `k` has position `k + 1` projects to itself |
| HomeView.ProjectionIdempotent | app/src/main/java/com/jezerm/pokepc/navigation/HomeView.kt:42-45 | projecting an already projected grid returns it unchanged |
| HomeView.FindUnique | app/src/main/java/com/jezerm/pokepc/navigation/HomeView.kt:43 | when positions are unique, `find` at an ingredient's position returns that ingredient |
| HomeView.ProjectionOrderIndependent | app/src/main/java/com/jezerm/pokepc/navigation/HomeView.kt:42-45 | when positions are unique, any reordering of the ingredient list gives the same grid |
| HomeView.TwoIngredientExample | app/src/main/java/com/jezerm/pokepc/navigation/HomeView.kt:42-45 | wheat at 1 and sugar cane at 5 project to wheat, three AIR slots, sugar cane, then four AIR slots |

## Left out

- The Compose UI in `HomeView.kt` is not modelled. This covers `LazyVerticalGrid`, `Surface`, `Image`, image resources, borders, sizes and colours, `RecipeContainer`, and the `RecipeCards` lists and headers. It is presentation over a UI framework.
- The `HomeView` scaffold, the system-bar controller, the coroutine scope and navigation are not modelled. They are platform plumbing.
- The `Item` and `Recipe` enums are not part of this model. `Item` is kept abstract: `AIR` plus a named item. Labels and image ids are omitted. `Recipe` keeps only its result item and ingredient list.
- Positions are Kotlin `Int`. They are modelled as unbounded `int`. The code only compares them for equality, so 32-bit width does not matter.
- `ArrayList` is modelled as a local `seq` that the loop extends. Its identity and capacity are not modelled.
- The chest loot seed tables (`data/ChestPopulate.kt`) are not modelled. They are static data with no behaviour.
- The smelting pairs (`entities/BurnRecipe.kt`) are not modelled. They are static data with no behaviour.
