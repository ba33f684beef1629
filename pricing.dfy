/** The costing formulas of the calculator, all recomputed from the catalog and the
    recipe: the cost of one line, the total raw-material cost, the marked-up total
    in which raw materials are 35% of the price, and the price of one unit. */
module Pricing {
  import opened ArrayOps
  import opened Entities
  import opened Catalog
  import opened Recipe

  /** `getIngredientCost`: price per kilogram times grams over 1000 for the first
      catalog entry with that id, and 0 when there is none (no material chosen or
      the material no longer listed). */
  function IngredientCost(c: seq<RawMaterial>, materialId: string, grams: real): (r: real)
    ensures materialId !in MaterialIds(c) ==> r == 0.0
    ensures grams == 0.0 ==> r == 0.0
  {
    match FindMaterial(c, materialId)
    case None => 0.0
    case Some(m) => m.pricePerKg * grams / 1000.0
  }

  /** With positive catalog prices, a line with non-negative grams never costs less
      than nothing. */
  lemma IngredientCostNonNegative(c: seq<RawMaterial>, materialId: string, grams: real)
    ensures WellFormed(c) && grams >= 0.0 ==> IngredientCost(c, materialId, grams) >= 0.0
  {
    var found := FindMaterial(c, materialId);
    if WellFormed(c) && grams >= 0.0 && found.Some? {
      var m := found.value;
      assert m in c;
      ScaledProductNonNegative(m.pricePerKg, grams);
    }
  }

  lemma ScaledProductNonNegative(price: real, grams: real)
    requires price > 0.0 && grams >= 0.0
    ensures price * grams / 1000.0 >= 0.0
  {
  }

  /** The cost of a line comes from the first catalog entry with its material id. */
  lemma IngredientCostOfFirstMatch(c: seq<RawMaterial>, k: nat, grams: real)
    requires k < |c|
    requires forall j :: 0 <= j < k ==> c[j].id != c[k].id
    ensures IngredientCost(c, c[k].id, grams) == c[k].pricePerKg * grams / 1000.0
  {
    FindMaterialFirst(c, c[k].id, k);
  }

  /** In a catalog with distinct ids, a line that uses a listed material costs that
      material's price per kilogram times its grams over 1000. */
  lemma IngredientCostOfEntry(c: seq<RawMaterial>, m: RawMaterial, grams: real)
    requires IdsUnique(c) && m in c
    ensures IngredientCost(c, m.id, grams) == m.pricePerKg * grams / 1000.0
  {
    FindMaterialUnique(c, m);
  }

  function LineCost(c: seq<RawMaterial>, l: Ingredient): real {
    IngredientCost(c, l.materialId, l.grams)
  }

  /** `totalRawMaterialCost`: the line costs added up from the first line to the last,
      as `reduce` with initial value 0 does. It is never negative for a well-formed
      catalog and lines with non-negative grams. */
  function TotalRawMaterialCost(c: seq<RawMaterial>, lines: seq<Ingredient>): (r: real)
    ensures WellFormed(c) && (forall l :: l in lines ==> l.grams >= 0.0) ==> r >= 0.0
    ensures (forall l :: l in lines ==> l.materialId !in MaterialIds(c)) ==> r == 0.0
  {
    if lines == [] then 0.0
    else
      var init, last := lines[..|lines| - 1], lines[|lines| - 1];
      assert forall l :: l in init ==> l in lines;
      IngredientCostNonNegative(c, last.materialId, last.grams);
      TotalRawMaterialCost(c, init) + LineCost(c, last)
  }

  /** The total over two runs of lines is the sum of their totals. */
  lemma {:induction false} TotalAppend(c: seq<RawMaterial>, a: seq<Ingredient>, b: seq<Ingredient>)
    ensures TotalRawMaterialCost(c, a + b) == TotalRawMaterialCost(c, a) + TotalRawMaterialCost(c, b)
  {
    if b == [] {
      assert a + b == a;
    } else {
      var b' := b[..|b| - 1];
      assert (a + b)[..|a + b| - 1] == a + b';
      assert (a + b)[|a + b| - 1] == b[|b| - 1];
      TotalAppend(c, a, b');
    }
  }

  /** The order of the lines does not matter: the same lines in any order cost the same. */
  lemma {:induction false} TotalPermutation(c: seq<RawMaterial>, a: seq<Ingredient>, b: seq<Ingredient>)
    requires multiset(a) == multiset(b)
    ensures TotalRawMaterialCost(c, a) == TotalRawMaterialCost(c, b)
    decreases |a|
  {
    if a == [] {
      assert |b| == |multiset(b)| == 0;
    } else {
      var x := a[|a| - 1];
      var a' := a[..|a| - 1];
      assert a == a' + [x];
      assert x in multiset(b);
      var k :| 0 <= k < |b| && b[k] == x;
      var b' := b[..k] + b[k + 1..];
      assert b == b[..k] + [x] + b[k + 1..];
      assert multiset(b) == multiset(b[..k]) + multiset{x} + multiset(b[k + 1..]);
      assert multiset(b') == multiset(b[..k]) + multiset(b[k + 1..]);
      assert multiset(a) == multiset(a') + multiset{x};
      forall y ensures multiset(a')[y] == multiset(b')[y] {
        assert multiset(a)[y] == multiset(a')[y] + multiset{x}[y];
        assert multiset(b)[y] == multiset(b[..k])[y] + multiset{x}[y] + multiset(b[k + 1..])[y];
      }
      assert multiset(a') == multiset(b');
      TotalPermutation(c, a', b');
      TotalAppend(c, b[..k] + [x], b[k + 1..]);
      TotalAppend(c, b[..k], [x]);
      TotalAppend(c, b[..k], b[k + 1..]);
      TotalAppend(c, a', [x]);
    }
  }

  /** Splitting the lines by any test: the total is the total of the lines that pass
      plus the total of the lines that fail. */
  lemma {:induction false} TotalSplit(c: seq<RawMaterial>, lines: seq<Ingredient>, keep: Ingredient -> bool, drop: Ingredient -> bool)
    requires forall l :: drop(l) == !keep(l)
    ensures TotalRawMaterialCost(c, lines)
            == TotalRawMaterialCost(c, Filter(lines, keep)) + TotalRawMaterialCost(c, Filter(lines, drop))
  {
    if lines != [] {
      var x, rest := lines[0], lines[1..];
      assert lines == [x] + rest;
      TotalSplit(c, rest, keep, drop);
      TotalAppend(c, [x], rest);
      if keep(x) {
        TotalAppend(c, [x], Filter(rest, keep));
      } else {
        TotalAppend(c, [x], Filter(rest, drop));
      }
    }
  }

  /** Two catalogs that price every line alike give the same total. */
  lemma {:induction false} TotalSameLineCosts(c: seq<RawMaterial>, c': seq<RawMaterial>, lines: seq<Ingredient>)
    requires forall l :: l in lines ==> LineCost(c, l) == LineCost(c', l)
    ensures TotalRawMaterialCost(c, lines) == TotalRawMaterialCost(c', lines)
  {
    if lines != [] {
      var init := lines[..|lines| - 1];
      assert forall l :: l in init ==> l in lines;
      TotalSameLineCosts(c, c', init);
    }
  }

  /** `addIngredient` leaves the total as it was: the blank line weighs nothing. */
  lemma BlankLineCostsNothing(c: seq<RawMaterial>, lines: seq<Ingredient>, freshId: string)
    ensures TotalRawMaterialCost(c, AddLine(lines, freshId)) == TotalRawMaterialCost(c, lines)
  {
    assert AddLine(lines, freshId)[..|lines|] == lines;
  }

  /** `removeIngredient` lowers the total by exactly the cost of the lines removed. */
  lemma TotalAfterRemoveLine(c: seq<RawMaterial>, lines: seq<Ingredient>, id: string)
    ensures TotalRawMaterialCost(c, RemoveLine(lines, id))
            == TotalRawMaterialCost(c, lines) - TotalRawMaterialCost(c, Filter(lines, HasLineId(id)))
  {
    TotalSplit(c, lines, HasOtherLineId(id), HasLineId(id));
  }

  /** `removeRawMaterial` with its cascade lowers the total by exactly the cost the
      lines using that material had; every remaining line costs what it did. */
  lemma TotalAfterCascade(c: seq<RawMaterial>, lines: seq<Ingredient>, id: string)
    ensures TotalRawMaterialCost(RemoveMaterial(c, id), RemoveLinesUsing(lines, id))
            == TotalRawMaterialCost(c, lines) - TotalRawMaterialCost(c, LinesUsing(lines, id))
  {
    var kept := RemoveLinesUsing(lines, id);
    forall l | l in kept ensures LineCost(RemoveMaterial(c, id), l) == LineCost(c, l) {
      FindAfterRemove(c, id, l.materialId);
    }
    TotalSameLineCosts(RemoveMaterial(c, id), c, kept);
    TotalSplit(c, lines, UsesOtherMaterial(id), UsesMaterial(id));
  }

  /** Editing the line with a given id, when line ids are distinct, changes the total
      by the difference between the edited line's new and old cost. */
  lemma TotalAfterUpdate(c: seq<RawMaterial>, lines: seq<Ingredient>, k: nat, e: LineEdit)
    requires LineIdsUnique(lines) && k < |lines|
    ensures TotalRawMaterialCost(c, UpdateLines(lines, lines[k].id, e))
            == TotalRawMaterialCost(c, lines) - LineCost(c, lines[k]) + LineCost(c, Edited(lines[k], e))
  {
    var id := lines[k].id;
    var a, x, b := lines[..k], lines[k], lines[k + 1..];
    var r := UpdateLines(lines, id, e);
    forall i | 0 <= i < |lines| && i != k ensures r[i] == lines[i] {
      if i < k {
        assert LineKey(lines[i]) != LineKey(lines[k]);
      } else {
        assert LineKey(lines[k]) != LineKey(lines[i]);
      }
    }
    assert lines == a + [x] + b;
    assert r == a + [Edited(x, e)] + b;
    TotalAppend(c, a + [x], b);
    TotalAppend(c, a, [x]);
    TotalAppend(c, a + [Edited(x, e)], b);
    TotalAppend(c, a, [Edited(x, e)]);
  }

  /** `totalWithProfit`: the total times 100 over 35, so that the raw materials make up
      35% of it; it is never below a non-negative raw-material cost. */
  function TotalWithProfit(total: real): (r: real)
    ensures r * 35.0 == total * 100.0
    ensures total >= 0.0 ==> r >= total
  {
    total * 100.0 / 35.0
  }

  /** `pricePerUnit`: the marked-up total shared among the units the recipe yields,
      and 0 when the quantity is zero or negative. */
  function PricePerUnit(withProfit: real, quantity: real): (r: real)
    ensures quantity <= 0.0 ==> r == 0.0
    ensures quantity > 0.0 ==> r * quantity == withProfit
  {
    if quantity > 0.0 then withProfit / quantity else 0.0
  }

  /** Flour at 100 per kilogram, 250 grams of it and a yield of 2 units: the raw
      materials cost 25, the marked-up total is 2500/35 and one unit sells at half of it. */
  lemma FlourExample()
    ensures var c := [RawMaterial("1", "Flour", 100.0)];
            var lines := [Ingredient("2", "1", 250.0)];
            var total := TotalRawMaterialCost(c, lines);
            && total == 25.0
            && TotalWithProfit(total) == 2500.0 / 35.0
            && PricePerUnit(TotalWithProfit(total), 2.0) == 2500.0 / 35.0 / 2.0
  {
    var c := [RawMaterial("1", "Flour", 100.0)];
    var lines := [Ingredient("2", "1", 250.0)];
    IngredientCostOfEntry(c, c[0], 250.0);
    assert lines[..0] == [];
  }
}
