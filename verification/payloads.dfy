/**
 The JSON body that the recipe page posts to the recipes route: one
 element per selected ingredient line, typed as the page builds it.
 */
module Payloads {

  /** One element of the `ingredients` array of a recipe request. */
  datatype RecipeItemPayload = RecipeItemPayload(
    inventoryId: int,
    quantity: real,
    measurementType: string,
    price: real)

  /** The caller-supplied price of an item. */
  function PayloadPrice(item: RecipeItemPayload): real
  {
    item.price
  }
}
