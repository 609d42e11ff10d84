/** Option, as returned by a Kotlin lookup that may yield `null`. */
module Wrappers {
  datatype Option<+T> = None | Some(value: T)
}

/** The game's item and recipe entities, reduced to what the recipe grid reads. */
module Entities {
  /** An item of the game. Only the empty-slot sentinel `AIR` is singled out;
      every other item is told apart by its enum name. */
  datatype Item = AIR | Named(name: string)

  /** One ingredient of a recipe: an item and its crafting-grid position
      (1 to 9 in well-authored data; any integer is accepted). */
  type Ingredient = (Item, int)

  /** A crafting recipe: the item it produces and its sparse ingredient list. */
  datatype Recipe = Recipe(result: Item, items: seq<Ingredient>)
}
