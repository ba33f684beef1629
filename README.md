# Product cost calculator: the costing engine in Dafny

This project models the costing engine of a single-page product cost calculator
(`app/page.tsx`, the `CostCalculator` component). The engine has three parts:

- **Catalog.** An ordered list of raw materials, each with an id, a name and a
  price per kilogram. `addRawMaterial` appends an entry only when the form's trimmed
  name is non-empty and its price is positive. `removeRawMaterial` filters the entry
  out and, in the same step, removes every recipe line that used it.
- **Recipe.** The product being priced has a title, the number of units the recipe
  yields, and an ordered list of ingredient lines. `addIngredient` appends a blank
  line (no material, 0 grams). `updateIngredient` edits one field of the line with a
  given id. `removeIngredient` filters a line out.
- **Pricing.** The cost of a line is price per kilogram times grams over 1000, taken
  from the first catalog entry with the line's material id, and 0 when there is none.
  The total raw-material cost adds the line costs up. The total with profit is that
  total times 100 over 35, so raw materials are 35% of the price. The price per unit
  divides by the quantity when it is positive and is 0 otherwise.

Prices, grams and quantities are exact `real`s. Ids are strings. Where the
component calls `Date.now()` for a new id, the model takes a `freshId` argument and
requires that no existing entry or line already has it.

Layout, one module per file:

- `text.dfy`, module `Text`: `String.prototype.trim`, with the ECMAScript white-space
  and line-terminator code points.
- `array_ops.dfy`, module `ArrayOps`: `Array.prototype.filter` and
  `Array.prototype.find` as functions over sequences.
- `entities.dfy`, module `Entities`: `RawMaterial`, `Ingredient`, `Product`, and the
  add-material form (`MaterialDraft`).
- `catalog.dfy`, module `Catalog`: the guarded add, the remove filter, the lookup by
  id, and the catalog invariant (distinct ids, trimmed non-empty names, positive
  prices).
- `recipe.dfy`, module `Recipe`: the blank line, the one-field edit, line removal,
  the cascade filter, and the invariant that every chosen material is listed.
- `pricing.dfy`, module `Pricing`: the four formulas and how each operation moves
  the total.
- `calculator.dfy`, module `Calculator`: the component state as the class
  `CostCalculator`. Its fields are `rawMaterials`, `newMaterial` and `product`. The
  handlers reassign these fields. Each handler is proved against the functions
  above, and `FlourSession` prices an example from the handler contracts alone.

## Model

| member | source | states |
|---|---|---|
| Text.LeadingWhiteSpace | app/page.tsx:92 | the run of white space that starts the name: all white space, followed by a non-white-space character or the end |
| Text.TrailingWhiteSpace | app/page.tsx:92 | the run of white space that ends the name: all white space, preceded by a non-white-space character or the start |
| Text.Trim | app/page.tsx:92 | a trimmed name neither starts nor ends with white space |
| Text.TrimIsSlice | app/page.tsx:98 | the trimmed name is the slice of the input after the leading run, and everything cut off on either side is white space |
| Text.TrimEmptyIff | app/page.tsx:92 | `name.trim()` is empty (falsy) exactly when the name is all white space |
| Text.TrimIdempotent | app/page.tsx:98 | trimming a stored (already trimmed) name again changes nothing |
| ArrayOps.Filter | app/page.tsx:111 | `filter` keeps exactly the elements that pass, never grows the list, and changes nothing when every element passes |
| ArrayOps.FilterCounts | app/page.tsx:146 | each passing element is kept as often as it occurs, and every other element is dropped entirely |
| ArrayOps.FilterKeepsOrder | app/page.tsx:114 | the kept elements stay in their original relative order |
| ArrayOps.FilterConcat | app/page.tsx:111 | filtering a concatenation is the concatenation of the filtered parts |
| ArrayOps.FilterDropsOne | app/page.tsx:111 | filtering out one failing element between two runs that pass leaves exactly the two runs |
| ArrayOps.FilterKeepsKeysUnique | app/page.tsx:111 | filtering keeps ids distinct |
| ArrayOps.Find | app/page.tsx:151 | `find` is undefined exactly when no element matches; otherwise it returns a listed element that matches |
| ArrayOps.FindFirst | app/page.tsx:151 | `find` returns the element at the first matching index |
| ArrayOps.FindAfterFilter | app/page.tsx:151 | filtering out elements the lookup never accepts does not change what `find` returns |
| Catalog.AddMaterial | app/page.tsx:90-101 | the catalog grows by exactly one entry iff the draft is admissible (and is unchanged otherwise); old entries form the prefix; the fresh id joins the ids on success |
| Catalog.AddRejectedIsNoOp | app/page.tsx:91-95 | a blank name or a price that is not positive leaves the catalog exactly as it was |
| Catalog.AddAppendsOne | app/page.tsx:96-101 | a successful add appends one entry (fresh id, trimmed name, given price) after the unchanged old entries |
| Catalog.AddKeepsWellFormed | app/page.tsx:96-101 | adding with a fresh id keeps ids distinct, names trimmed and non-empty, and prices positive |
| Catalog.FindMaterial | app/page.tsx:151 | the lookup finds nothing exactly when the id is not in the catalog; otherwise it finds a catalog entry with that id |
| Catalog.FindMaterialFirst | app/page.tsx:151 | when several entries share the id, the lookup returns the first |
| Catalog.FindMaterialUnique | app/page.tsx:151 | with distinct ids, looking up an entry's id returns that entry |
| Catalog.RemoveMaterial | app/page.tsx:111 | no entry with the id remains; every other entry stays; the ids lose exactly that id; an absent id changes nothing |
| Catalog.RemoveMaterialKeepsOrder | app/page.tsx:111 | the remaining entries keep their original order |
| Catalog.RemoveMaterialLength | app/page.tsx:111 | with distinct ids, removing a present id drops exactly one entry, and removing an absent id drops none |
| Catalog.RemoveKeepsWellFormed | app/page.tsx:111 | removal keeps the catalog invariant |
| Catalog.FindAfterRemove | app/page.tsx:110-116 | removing one material leaves the lookup of every other id unchanged |
| Recipe.AddLine | app/page.tsx:118-127 | one more line, at the end, after the unchanged old lines; it has no material and 0 grams; its fresh id joins the line ids |
| Recipe.AddLineKeepsInvariants | app/page.tsx:118-127 | a blank line with a fresh id keeps line ids distinct and every chosen material listed |
| Recipe.UpdateLines | app/page.tsx:135-140 | the line count is unchanged; each line with the id carries the edit; every other line is identical |
| Recipe.UpdateAbsentIsNoOp | app/page.tsx:135-140 | an id that no line has changes nothing |
| Recipe.UpdateKeepsLineIds | app/page.tsx:137-139 | an edit keeps the set of line ids and keeps them distinct |
| Recipe.UpdateKeepsReferences | app/page.tsx:365-386 | an edit that picks no material or a listed one (as the material picker offers) keeps every chosen material listed |
| Recipe.RemoveLine | app/page.tsx:143-147 | exactly the lines with that id go; the other lines stay; an absent id changes nothing |
| Recipe.RemoveLineKeeps | app/page.tsx:143-147 | the other lines keep their order and multiplicity; line ids stay distinct; chosen materials stay listed |
| Recipe.LinesUsing | app/page.tsx:112-115 | the lines that use the material are exactly those with that `materialId` |
| Recipe.RemoveLinesUsing | app/page.tsx:112-115 | the cascade drops exactly the lines using the material and keeps the rest; it changes nothing when no line uses it |
| Recipe.CascadeRemovesExactly | app/page.tsx:110-116 | the kept lines are in the original order, and kept plus removed lines are, occurrence for occurrence, the original lines |
| Recipe.CascadeKeepsReferences | app/page.tsx:110-116 | after the cascade no line uses the removed id; every chosen material is still listed; line ids stay distinct |
| Recipe.AddMaterialKeepsReferences | app/page.tsx:90-101 | adding a material (accepted or rejected) keeps every chosen material listed |
| Pricing.IngredientCost | app/page.tsx:150-154 | the cost is 0 for a material id not in the catalog and for 0 grams |
| Pricing.IngredientCostNonNegative | app/page.tsx:150-154 | with positive catalog prices, a line with non-negative grams never has a negative cost |
| Pricing.IngredientCostOfFirstMatch | app/page.tsx:150-154 | the cost is price per kilogram times grams over 1000, using the first entry with the id |
| Pricing.IngredientCostOfEntry | app/page.tsx:150-154 | with distinct ids, a line using a listed material costs that material's price times grams over 1000 |
| Pricing.TotalRawMaterialCost | app/page.tsx:156-158 | the total is never negative for a well-formed catalog and non-negative grams, and is 0 when no line resolves |
| Pricing.TotalAppend | app/page.tsx:156-158 | the total of two runs of lines is the sum of their totals |
| Pricing.TotalPermutation | app/page.tsx:156-158 | the same lines in any order give the same total |
| Pricing.TotalSplit | app/page.tsx:156-158 | the total equals the total of the lines passing any test plus the total of those failing it |
| Pricing.TotalSameLineCosts | app/page.tsx:156-158 | two catalogs that price every line alike give the same total |
| Pricing.BlankLineCostsNothing | app/page.tsx:118-127 | `addIngredient` leaves the total raw-material cost unchanged |
| Pricing.TotalAfterRemoveLine | app/page.tsx:143-147 | removing a line lowers the total by exactly the cost of the removed lines |
| Pricing.TotalAfterCascade | app/page.tsx:110-116 | removing a material with its cascade lowers the total by exactly what the lines using it cost; the remaining lines cost what they did |
| Pricing.TotalAfterUpdate | app/page.tsx:135-140 | with distinct line ids, editing one line changes the total by that line's new cost minus its old cost |
| Pricing.TotalWithProfit | app/page.tsx:160 | the marked-up total times 35 equals the raw-material cost times 100, and is not below a non-negative cost |
| Pricing.PricePerUnit | app/page.tsx:161-162 | the unit price is 0 whenever the quantity is not positive; otherwise it times the quantity gives back the marked-up total |
| Pricing.FlourExample | app/page.tsx:150-162 | 250 g at 100 per kg for 2 units: total 25, marked-up 2500/35, per unit 2500/35/2 |
| Calculator.CostCalculator.constructor | app/page.tsx:52-58 | the state starts as an empty catalog, an empty form, and an untitled one-unit product with no lines; it is valid and prices at 0 |
| Calculator.CostCalculator.SetDraftName | app/page.tsx:213-218 | only the form's name changes |
| Calculator.CostCalculator.SetDraftPrice | app/page.tsx:230-235 | only the form's price changes |
| Calculator.CostCalculator.AddRawMaterial | app/page.tsx:90-108 | the catalog becomes the guarded append of the form; the form is cleared on success only; the product is untouched; the invariants are kept |
| Calculator.CostCalculator.RemoveRawMaterial | app/page.tsx:110-116 | the catalog loses the entry and the product loses the lines using it, in one step; title and quantity are kept; the total falls by those lines' cost |
| Calculator.CostCalculator.AddIngredient | app/page.tsx:118-128 | a blank line is appended; the catalog and form are untouched; the total is unchanged |
| Calculator.CostCalculator.UpdateIngredient | app/page.tsx:130-141 | only lines with the id are edited; title, quantity and catalog are untouched; the total moves by the edited line's cost change |
| Calculator.CostCalculator.RemoveIngredient | app/page.tsx:143-148 | exactly the lines with the id go; title, quantity and catalog are untouched |
| Calculator.CostCalculator.SetTitle | app/page.tsx:310-311 | only the title changes |
| Calculator.CostCalculator.SetQuantity | app/page.tsx:322-327 | only the quantity changes; a quantity that is not positive makes the unit price 0 |

## Left out

- Theme detection, toggling and persistence (app/page.tsx:51, 60-69, 76-88). These are browser and DOM input/output, not costing.
- Reading the catalog from `localStorage` with `JSON.parse` at start-up (app/page.tsx:70-73). The model starts from an empty catalog instead.
- Writing the catalog to `localStorage` after an add (app/page.tsx:102-105). This is storage output. The model states no persistence contract: removal is not written back in the component either.
- `Date.now().toString()` ids (app/page.tsx:97, 120). A clock call is replaced by a caller-supplied `freshId` that must not already be in use. `AddRawMaterial` requires this even when the add is rejected, although no id is drawn then.
- Parsing of typed input (`Number.parseFloat`, `Number`) and `toFixed(2)` display rounding. These are presentation. The setters take the parsed real directly.
- IEEE floating point: NaN, infinities and rounding in the sum. Over exact reals the truthiness test `newMaterial.pricePerKg &&` adds nothing to `> 0`.
- The JSX tree and the disabled-button guards (app/page.tsx:243-247, 336). The add-material guard repeats `Catalog.Admissible`. The add-ingredient button is disabled while the catalog is empty, but `addIngredient` itself does not check this, and neither does the model.
- Recipe.UpdateLines: `updateIngredient` is typed to accept any field of `Ingredient` (including `id`) with a string or number value. The model has only the two edits the component makes: a material id (a string) and grams (a number). Renaming a line's id and ill-typed field/value pairs are not modelled.
- Recipe.ReferencesResolve: "every chosen material is in the catalog" is not part of `CostCalculator.Valid()`. `updateIngredient` accepts any material id; only the material picker limits it to listed ids. So the handlers keep it only under that condition, as stated in `UpdateIngredient`.
