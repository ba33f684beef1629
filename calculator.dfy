/** The state of the cost calculator component and the handlers that replace it:
    the catalog, the "new raw material" form and the product being priced. Each
    handler assigns a field a new sequence built by append, filter or map, and the
    derived figures are recomputed from the fields on every read. */
module Calculator {
  import opened Text
  import opened Entities
  import opened Catalog
  import opened Recipe
  import opened Pricing

  class CostCalculator {
    var rawMaterials: seq<RawMaterial>
    var newMaterial: MaterialDraft
    var product: Product

    /** Catalog ids are distinct, stored names trimmed and non-empty, prices positive,
        and recipe line ids distinct. */
    ghost predicate Valid()
      reads this
    {
      WellFormed(rawMaterials) && LineIdsUnique(product.ingredients)
    }

    /** The figure shown as the total raw-material cost. */
    function RawMaterialCost(): real
      reads this
    {
      TotalRawMaterialCost(rawMaterials, product.ingredients)
    }

    /** The figure shown as the cost with profit. */
    function CostWithProfit(): real
      reads this
    {
      TotalWithProfit(RawMaterialCost())
    }

    /** The figure shown as the price per unit. */
    function UnitPrice(): real
      reads this
    {
      PricePerUnit(CostWithProfit(), product.quantity)
    }

    /** The initial state: an empty catalog, an empty form, and an untitled product
        yielding one unit with no lines. */
    constructor ()
      ensures Valid()
      ensures rawMaterials == [] && newMaterial == MaterialDraft("", 0.0)
      ensures product == Product("", 1.0, [])
      ensures UnitPrice() == 0.0
    {
      rawMaterials := [];
      newMaterial := MaterialDraft("", 0.0);
      product := Product("", 1.0, []);
    }

    /** Typing in the name field of the form. */
    method SetDraftName(name: string)
      modifies this
      ensures newMaterial == old(newMaterial).(name := name)
      ensures rawMaterials == old(rawMaterials) && product == old(product)
    {
      newMaterial := newMaterial.(name := name);
    }

    /** Typing in the price field of the form. */
    method SetDraftPrice(pricePerKg: real)
      modifies this
      ensures newMaterial == old(newMaterial).(pricePerKg := pricePerKg)
      ensures rawMaterials == old(rawMaterials) && product == old(product)
    {
      newMaterial := newMaterial.(pricePerKg := pricePerKg);
    }

    /** `addRawMaterial`: when the form holds a non-blank name and a positive price,
        append the entry with the fresh id and the trimmed name and clear the form;
        otherwise change nothing. */
    method AddRawMaterial(freshId: string)
      requires Valid() && freshId !in MaterialIds(rawMaterials)
      modifies this
      ensures Valid()
      ensures rawMaterials == AddMaterial(old(rawMaterials), old(newMaterial.name), old(newMaterial.pricePerKg), freshId)
      ensures newMaterial == if Admissible(old(newMaterial.name), old(newMaterial.pricePerKg))
                             then MaterialDraft("", 0.0) else old(newMaterial)
      ensures product == old(product)
      ensures ReferencesResolve(old(rawMaterials), product.ingredients) ==> ReferencesResolve(rawMaterials, product.ingredients)
    {
      AddKeepsWellFormed(rawMaterials, newMaterial.name, newMaterial.pricePerKg, freshId);
      if Admissible(newMaterial.name, newMaterial.pricePerKg) {
        AddMaterialKeepsReferences(rawMaterials, product.ingredients, newMaterial.name, newMaterial.pricePerKg, freshId);
        rawMaterials := rawMaterials + [RawMaterial(freshId, Trim(newMaterial.name), newMaterial.pricePerKg)];
        newMaterial := MaterialDraft("", 0.0);
      }
    }

    /** `removeRawMaterial`: drop the entry with that id and, in the same step, every
        recipe line that uses it. The total falls by what those lines cost. */
    method RemoveRawMaterial(id: string)
      requires Valid()
      modifies this
      ensures Valid()
      ensures rawMaterials == RemoveMaterial(old(rawMaterials), id)
      ensures product == old(product).(ingredients := RemoveLinesUsing(old(product.ingredients), id))
      ensures newMaterial == old(newMaterial)
      ensures ReferencesResolve(old(rawMaterials), old(product.ingredients)) ==> ReferencesResolve(rawMaterials, product.ingredients)
      ensures RawMaterialCost() == old(RawMaterialCost()) - TotalRawMaterialCost(old(rawMaterials), LinesUsing(old(product.ingredients), id))
    {
      RemoveKeepsWellFormed(rawMaterials, id);
      CascadeKeepsReferences(rawMaterials, product.ingredients, id);
      TotalAfterCascade(rawMaterials, product.ingredients, id);
      rawMaterials := RemoveMaterial(rawMaterials, id);
      product := product.(ingredients := RemoveLinesUsing(product.ingredients, id));
    }

    /** `addIngredient`: append a blank line with the fresh id; the total is unchanged. */
    method AddIngredient(freshId: string)
      requires Valid() && freshId !in LineIds(product.ingredients)
      modifies this
      ensures Valid()
      ensures product == old(product).(ingredients := AddLine(old(product.ingredients), freshId))
      ensures rawMaterials == old(rawMaterials) && newMaterial == old(newMaterial)
      ensures ReferencesResolve(rawMaterials, old(product.ingredients)) ==> ReferencesResolve(rawMaterials, product.ingredients)
      ensures RawMaterialCost() == old(RawMaterialCost())
    {
      AddLineKeepsInvariants(rawMaterials, product.ingredients, freshId);
      BlankLineCostsNothing(rawMaterials, product.ingredients, freshId);
      product := product.(ingredients := product.ingredients + [Ingredient(freshId, NoMaterial, 0.0)]);
    }

    /** `updateIngredient`: apply the edit to the line with that id, leave every other
        line, the title and the quantity as they were. */
    method UpdateIngredient(id: string, e: LineEdit)
      requires Valid()
      modifies this
      ensures Valid()
      ensures product == old(product).(ingredients := UpdateLines(old(product.ingredients), id, e))
      ensures rawMaterials == old(rawMaterials) && newMaterial == old(newMaterial)
      ensures ReferencesResolve(rawMaterials, old(product.ingredients))
              && (e.SetMaterial? ==> e.materialId == NoMaterial || e.materialId in MaterialIds(rawMaterials))
              ==> ReferencesResolve(rawMaterials, product.ingredients)
      ensures forall k :: 0 <= k < |old(product.ingredients)| && old(product.ingredients)[k].id == id ==>
                RawMaterialCost() == old(RawMaterialCost()) - LineCost(rawMaterials, old(product.ingredients)[k])
                                     + LineCost(rawMaterials, Edited(old(product.ingredients)[k], e))
    {
      UpdateKeepsLineIds(product.ingredients, id, e);
      if ReferencesResolve(rawMaterials, product.ingredients)
         && (e.SetMaterial? ==> e.materialId == NoMaterial || e.materialId in MaterialIds(rawMaterials)) {
        UpdateKeepsReferences(rawMaterials, product.ingredients, id, e);
      }
      forall k | 0 <= k < |product.ingredients| && product.ingredients[k].id == id
        ensures TotalRawMaterialCost(rawMaterials, UpdateLines(product.ingredients, id, e))
                == RawMaterialCost() - LineCost(rawMaterials, product.ingredients[k])
                   + LineCost(rawMaterials, Edited(product.ingredients[k], e))
      {
        TotalAfterUpdate(rawMaterials, product.ingredients, k, e);
      }
      product := product.(ingredients := UpdateLines(product.ingredients, id, e));
    }

    /** `removeIngredient`: drop the line with that id, leave the title and quantity. */
    method RemoveIngredient(id: string)
      requires Valid()
      modifies this
      ensures Valid()
      ensures product == old(product).(ingredients := RemoveLine(old(product.ingredients), id))
      ensures rawMaterials == old(rawMaterials) && newMaterial == old(newMaterial)
      ensures ReferencesResolve(rawMaterials, old(product.ingredients)) ==> ReferencesResolve(rawMaterials, product.ingredients)
    {
      RemoveLineKeeps(rawMaterials, product.ingredients, id);
      product := product.(ingredients := RemoveLine(product.ingredients, id));
    }

    /** Typing the product title. */
    method SetTitle(title: string)
      modifies this
      ensures product == old(product).(title := title)
      ensures rawMaterials == old(rawMaterials) && newMaterial == old(newMaterial)
    {
      product := product.(title := title);
    }

    /** Typing the quantity the recipe yields; zero or negative values are accepted and
        make the price per unit 0. */
    method SetQuantity(quantity: real)
      modifies this
      ensures product == old(product).(quantity := quantity)
      ensures rawMaterials == old(rawMaterials) && newMaterial == old(newMaterial)
      ensures quantity <= 0.0 ==> UnitPrice() == 0.0
    {
      product := product.(quantity := quantity);
    }
  }

  /** A session that prices 250 grams of flour at 100 per kilogram for two units,
      proved from the handlers' contracts alone. */
  method FlourSession()
  {
    var app := new CostCalculator();
    app.SetDraftName("Flour");
    app.SetDraftPrice(100.0);
    assert Trim("Flour") == "Flour" by {
      assert LeadingWhiteSpace("Flour") == 0;
      assert TrailingWhiteSpace("Flour") == 0;
    }
    app.AddRawMaterial("1");
    assert app.rawMaterials == [RawMaterial("1", "Flour", 100.0)];
    assert app.newMaterial == MaterialDraft("", 0.0);
    app.AddIngredient("2");
    app.UpdateIngredient("2", SetMaterial("1"));
    app.UpdateIngredient("2", SetGrams(250.0));
    assert app.product.ingredients == [Ingredient("2", "1", 250.0)];
    app.SetQuantity(2.0);
    FlourExample();
    assert app.RawMaterialCost() == 25.0;
    assert app.UnitPrice() == 2500.0 / 35.0 / 2.0;
    app.RemoveRawMaterial("1");
    assert app.product.ingredients == [];
    assert app.UnitPrice() == 0.0;
  }
}
