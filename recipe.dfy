/** The recipe lines of the product: the blank line `addIngredient` appends, the
    one-field edit `updateIngredient` maps over the lines, the filter of
    `removeIngredient`, and the cascade filter `removeRawMaterial` applies to them. */
module Recipe {
  import opened ArrayOps
  import opened Entities
  import opened Catalog

  function LineIds(lines: seq<Ingredient>): set<string> {
    set l | l in lines :: l.id
  }

  function LineKey(l: Ingredient): string {
    l.id
  }

  predicate LineIdsUnique(lines: seq<Ingredient>) {
    KeysUnique(lines, LineKey)
  }

  /** Every line whose material has been chosen names a material of the catalog. */
  predicate ReferencesResolve(c: seq<RawMaterial>, lines: seq<Ingredient>) {
    forall l :: l in lines && l.materialId != NoMaterial ==> l.materialId in MaterialIds(c)
  }

  /** `addIngredient` on the lines: one more line, at the end, with the fresh id,
      no material chosen and no grams. */
  function AddLine(lines: seq<Ingredient>, freshId: string): (r: seq<Ingredient>)
    ensures |r| == |lines| + 1 && r[..|lines|] == lines
    ensures r[|lines|].materialId == NoMaterial && r[|lines|].grams == 0.0
    ensures LineIds(r) == LineIds(lines) + {freshId}
  {
    lines + [Ingredient(freshId, NoMaterial, 0.0)]
  }

  /** A blank line with a fresh id keeps the line ids distinct and every reference
      resolvable. */
  lemma AddLineKeepsInvariants(c: seq<RawMaterial>, lines: seq<Ingredient>, freshId: string)
    requires freshId !in LineIds(lines)
    ensures LineIdsUnique(lines) ==> LineIdsUnique(AddLine(lines, freshId))
    ensures ReferencesResolve(c, lines) ==> ReferencesResolve(c, AddLine(lines, freshId))
  {
    var r := AddLine(lines, freshId);
    if LineIdsUnique(lines) {
      forall i, j | 0 <= i < j < |r| ensures LineKey(r[i]) != LineKey(r[j]) {
        assert r[i] == lines[i];
        if j < |lines| {
          assert r[j] == lines[j];
        } else {
          assert lines[i] in lines;
        }
      }
    }
  }

  /** The two edits the calculator makes to a line: choosing its material and typing
      its grams. */
  datatype LineEdit = SetMaterial(materialId: string) | SetGrams(grams: real)

  /** `{ ...ing, [field]: value }`. */
  function Edited(l: Ingredient, e: LineEdit): Ingredient {
    match e
    case SetMaterial(materialId) => l.(materialId := materialId)
    case SetGrams(grams) => l.(grams := grams)
  }

  /** `updateIngredient`: the lines mapped so that each line with the given id carries
      the edit and every other line is as it was. */
  function UpdateLines(lines: seq<Ingredient>, id: string, e: LineEdit): (r: seq<Ingredient>)
    ensures |r| == |lines|
    ensures forall i :: 0 <= i < |lines| ==>
              r[i] == if lines[i].id == id then Edited(lines[i], e) else lines[i]
  {
    if lines == [] then []
    else
      var first := if lines[0].id == id then Edited(lines[0], e) else lines[0];
      [first] + UpdateLines(lines[1..], id, e)
  }

  /** Updating a line id that no line has changes nothing. */
  lemma UpdateAbsentIsNoOp(lines: seq<Ingredient>, id: string, e: LineEdit)
    requires id !in LineIds(lines)
    ensures UpdateLines(lines, id, e) == lines
  {
    var r := UpdateLines(lines, id, e);
    forall i | 0 <= i < |lines| ensures r[i] == lines[i] {
      assert lines[i] in lines;
    }
  }

  /** An edit keeps the set of line ids, and keeps them distinct. */
  lemma UpdateKeepsLineIds(lines: seq<Ingredient>, id: string, e: LineEdit)
    ensures LineIds(UpdateLines(lines, id, e)) == LineIds(lines)
    ensures LineIdsUnique(lines) ==> LineIdsUnique(UpdateLines(lines, id, e))
  {
    var r := UpdateLines(lines, id, e);
    assert forall i :: 0 <= i < |r| ==> r[i].id == lines[i].id;
    forall x | x in LineIds(r) ensures x in LineIds(lines) {
      var i :| 0 <= i < |r| && r[i].id == x;
      assert lines[i] in lines;
    }
    forall x | x in LineIds(lines) ensures x in LineIds(r) {
      var i :| 0 <= i < |lines| && lines[i].id == x;
      assert r[i] in r;
    }
    if LineIdsUnique(lines) {
      forall i, j | 0 <= i < j < |r| ensures LineKey(r[i]) != LineKey(r[j]) {
        assert LineKey(lines[i]) != LineKey(lines[j]);
      }
    }
  }

  /** An edit keeps references resolvable when it chooses either no material or one
      from the catalog, as the material picker offers. */
  lemma UpdateKeepsReferences(c: seq<RawMaterial>, lines: seq<Ingredient>, id: string, e: LineEdit)
    requires ReferencesResolve(c, lines)
    requires e.SetMaterial? ==> e.materialId == NoMaterial || e.materialId in MaterialIds(c)
    ensures ReferencesResolve(c, UpdateLines(lines, id, e))
  {
    var r := UpdateLines(lines, id, e);
    forall l | l in r && l.materialId != NoMaterial ensures l.materialId in MaterialIds(c) {
      var i :| 0 <= i < |r| && r[i] == l;
      assert lines[i] in lines;
    }
  }

  function HasLineId(id: string): Ingredient -> bool {
    (l: Ingredient) => l.id == id
  }

  function HasOtherLineId(id: string): Ingredient -> bool {
    (l: Ingredient) => l.id != id
  }

  /** `removeIngredient`: the lines without the ones carrying that id. */
  function RemoveLine(lines: seq<Ingredient>, id: string): (r: seq<Ingredient>)
    ensures forall l :: l in r <==> l in lines && l.id != id
    ensures LineIds(r) == LineIds(lines) - {id}
    ensures id !in LineIds(lines) ==> r == lines
  {
    var r := Filter(lines, HasOtherLineId(id));
    assert forall l :: l in r <==> l in lines && l.id != id;
    assert id !in LineIds(lines) ==> forall i :: 0 <= i < |lines| ==> HasOtherLineId(id)(lines[i]);
    r
  }

  /** Line removal keeps the other lines in order, each as often as before, and keeps
      line ids distinct and references resolvable. */
  lemma RemoveLineKeeps(c: seq<RawMaterial>, lines: seq<Ingredient>, id: string)
    ensures IsSubsequence(RemoveLine(lines, id), lines)
    ensures forall l: Ingredient :: l.id != id ==> multiset(RemoveLine(lines, id))[l] == multiset(lines)[l]
    ensures LineIdsUnique(lines) ==> LineIdsUnique(RemoveLine(lines, id))
    ensures ReferencesResolve(c, lines) ==> ReferencesResolve(c, RemoveLine(lines, id))
  {
    FilterKeepsOrder(lines, HasOtherLineId(id));
    FilterCounts(lines, HasOtherLineId(id));
    if LineIdsUnique(lines) {
      FilterKeepsKeysUnique(lines, HasOtherLineId(id), LineKey);
    }
  }

  function UsesMaterial(materialId: string): Ingredient -> bool {
    (l: Ingredient) => l.materialId == materialId
  }

  function UsesOtherMaterial(materialId: string): Ingredient -> bool {
    (l: Ingredient) => l.materialId != materialId
  }

  /** The lines that use the given material. */
  function LinesUsing(lines: seq<Ingredient>, materialId: string): (r: seq<Ingredient>)
    ensures forall l :: l in r <==> l in lines && l.materialId == materialId
  {
    Filter(lines, UsesMaterial(materialId))
  }

  /** The cascade of `removeRawMaterial` on the lines: every line that uses the
      removed material goes, every other line stays. */
  function RemoveLinesUsing(lines: seq<Ingredient>, materialId: string): (r: seq<Ingredient>)
    ensures forall l :: l in r <==> l in lines && l.materialId != materialId
    ensures (forall l :: l in lines ==> l.materialId != materialId) ==> r == lines
  {
    var r := Filter(lines, UsesOtherMaterial(materialId));
    assert (forall l :: l in lines ==> l.materialId != materialId) ==>
           forall i :: 0 <= i < |lines| ==> UsesOtherMaterial(materialId)(lines[i]);
    r
  }

  /** The cascade removes exactly the lines that use the material: what stays is in
      the original order, and the lines that stay together with the lines that use
      the material are, occurrence for occurrence, the lines there were. */
  lemma CascadeRemovesExactly(lines: seq<Ingredient>, materialId: string)
    ensures IsSubsequence(RemoveLinesUsing(lines, materialId), lines)
    ensures multiset(RemoveLinesUsing(lines, materialId)) + multiset(LinesUsing(lines, materialId))
            == multiset(lines)
  {
    FilterKeepsOrder(lines, UsesOtherMaterial(materialId));
    FilterCounts(lines, UsesOtherMaterial(materialId));
    FilterCounts(lines, UsesMaterial(materialId));
    var kept, gone := RemoveLinesUsing(lines, materialId), LinesUsing(lines, materialId);
    forall l ensures (multiset(kept) + multiset(gone))[l] == multiset(lines)[l] {
      assert UsesOtherMaterial(materialId)(l) == !UsesMaterial(materialId)(l);
    }
  }

  /** Removing a material together with the lines that use it keeps every remaining
      reference resolvable, keeps line ids distinct, and leaves no line using it. */
  lemma CascadeKeepsReferences(c: seq<RawMaterial>, lines: seq<Ingredient>, id: string)
    ensures ReferencesResolve(c, lines) ==>
              ReferencesResolve(RemoveMaterial(c, id), RemoveLinesUsing(lines, id))
    ensures LineIdsUnique(lines) ==> LineIdsUnique(RemoveLinesUsing(lines, id))
    ensures forall l :: l in RemoveLinesUsing(lines, id) ==> l.materialId != id
  {
    if LineIdsUnique(lines) {
      FilterKeepsKeysUnique(lines, UsesOtherMaterial(id), LineKey);
    }
  }

  /** A successful or rejected add of a material keeps every reference resolvable. */
  lemma AddMaterialKeepsReferences(c: seq<RawMaterial>, lines: seq<Ingredient>, name: string, pricePerKg: real, freshId: string)
    ensures ReferencesResolve(c, lines) ==> ReferencesResolve(AddMaterial(c, name, pricePerKg, freshId), lines)
  {
  }
}
