/** The records the cost calculator keeps: catalog entries, recipe lines, the product
    being priced, and the form from which a new catalog entry is made. Prices, weights
    and quantities are exact reals. */
module Entities {

  /** A purchasable input priced per kilogram. */
  datatype RawMaterial = RawMaterial(id: string, name: string, pricePerKg: real)

  /** A recipe line: an amount in grams of the material whose id is `materialId`;
      the empty `materialId` means no material has been chosen yet. */
  datatype Ingredient = Ingredient(id: string, materialId: string, grams: real)

  /** The product being priced: its title, how many units the recipe yields, and its
      recipe lines in insertion order. */
  datatype Product = Product(title: string, quantity: real, ingredients: seq<Ingredient>)

  /** The "new raw material" form: the name and price typed so far. */
  datatype MaterialDraft = MaterialDraft(name: string, pricePerKg: real)

  /** The `materialId` of a line whose material has not been chosen. */
  const NoMaterial: string := ""
}
