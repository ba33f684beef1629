/** The raw-material catalog: the guarded append of `addRawMaterial`, the filter of
    `removeRawMaterial`, and the lookup by id that `getIngredientCost` performs. */
module Catalog {
  import opened ArrayOps
  import opened Text
  import opened Entities

  function MaterialIds(c: seq<RawMaterial>): set<string> {
    set m | m in c :: m.id
  }

  function MaterialKey(m: RawMaterial): string {
    m.id
  }

  predicate IdsUnique(c: seq<RawMaterial>) {
    KeysUnique(c, MaterialKey)
  }

  /** Every catalog built by `AddMaterial` from an empty one has distinct ids, trimmed
      non-empty names and positive prices. */
  predicate WellFormed(c: seq<RawMaterial>) {
    && IdsUnique(c)
    && forall m :: m in c ==> m.name != "" && Trim(m.name) == m.name && m.pricePerKg > 0.0
  }

  /** The guard of `addRawMaterial`: a name that is not blank and a positive price. */
  predicate Admissible(name: string, pricePerKg: real) {
    Trim(name) != "" && pricePerKg > 0.0
  }

  /** `addRawMaterial` on the catalog: when the draft is admissible, append an entry
      with the fresh id, the trimmed name and the price; otherwise leave it alone. */
  function AddMaterial(c: seq<RawMaterial>, name: string, pricePerKg: real, freshId: string)
    : (r: seq<RawMaterial>)
    ensures |r| == |c| + 1 <==> Admissible(name, pricePerKg)
    ensures |r| == |c| <==> !Admissible(name, pricePerKg)
    ensures r[..|c|] == c
    ensures MaterialIds(r) == if Admissible(name, pricePerKg) then MaterialIds(c) + {freshId} else MaterialIds(c)
  {
    if Admissible(name, pricePerKg) then c + [RawMaterial(freshId, Trim(name), pricePerKg)] else c
  }

  /** A rejected add leaves the catalog exactly as it was. */
  lemma AddRejectedIsNoOp(c: seq<RawMaterial>, name: string, pricePerKg: real, freshId: string)
    requires Trim(name) == "" || pricePerKg <= 0.0
    ensures AddMaterial(c, name, pricePerKg, freshId) == c
  {
  }

  /** A successful add appends exactly one entry, the new one, after the old entries
      which stay as they were and in order. */
  lemma AddAppendsOne(c: seq<RawMaterial>, name: string, pricePerKg: real, freshId: string)
    requires Trim(name) != "" && pricePerKg > 0.0
    ensures var r := AddMaterial(c, name, pricePerKg, freshId);
            && |r| == |c| + 1
            && (forall i :: 0 <= i < |c| ==> r[i] == c[i])
            && r[|c|] == RawMaterial(freshId, Trim(name), pricePerKg)
  {
  }

  /** Adding with a fresh id keeps the catalog well formed: the stored name is trimmed,
      so trimming it again changes nothing. */
  lemma AddKeepsWellFormed(c: seq<RawMaterial>, name: string, pricePerKg: real, freshId: string)
    requires WellFormed(c) && freshId !in MaterialIds(c)
    ensures WellFormed(AddMaterial(c, name, pricePerKg, freshId))
  {
    if Admissible(name, pricePerKg) {
      var r := AddMaterial(c, name, pricePerKg, freshId);
      TrimIdempotent(name);
      forall i, j | 0 <= i < j < |r| ensures MaterialKey(r[i]) != MaterialKey(r[j]) {
        if j == |c| {
          assert r[i] == c[i];
          assert c[i] in c;
        } else {
          assert r[i] == c[i] && r[j] == c[j];
        }
      }
    }
  }

  function HasId(id: string): RawMaterial -> bool {
    (m: RawMaterial) => m.id == id
  }

  function HasOtherId(id: string): RawMaterial -> bool {
    (m: RawMaterial) => m.id != id
  }

  /** `rawMaterials.find(m => m.id === id)`: the first entry with that id, if any. */
  function FindMaterial(c: seq<RawMaterial>, id: string): (r: Option<RawMaterial>)
    ensures r.None? <==> id !in MaterialIds(c)
    ensures r.Some? ==> r.value in c && r.value.id == id
  {
    var r := Find(c, HasId(id));
    assert r.None? ==> forall m :: m in c ==> m.id != id;
    r
  }

  /** Of several entries with the same id, the lookup returns the first. */
  lemma FindMaterialFirst(c: seq<RawMaterial>, id: string, k: nat)
    requires k < |c| && c[k].id == id
    requires forall j :: 0 <= j < k ==> c[j].id != id
    ensures FindMaterial(c, id) == Some(c[k])
  {
    FindFirst(c, HasId(id), k);
  }

  /** In a catalog with distinct ids, the lookup of an entry's id returns that entry. */
  lemma FindMaterialUnique(c: seq<RawMaterial>, m: RawMaterial)
    requires IdsUnique(c) && m in c
    ensures FindMaterial(c, m.id) == Some(m)
  {
    var k :| 0 <= k < |c| && c[k] == m;
    forall j | 0 <= j < k ensures c[j].id != m.id {
      assert MaterialKey(c[j]) != MaterialKey(c[k]);
    }
    FindMaterialFirst(c, m.id, k);
  }

  /** `rawMaterials.filter(m => m.id !== id)`: every entry with that id is gone, every
      other entry stays; with no such entry nothing changes. */
  function RemoveMaterial(c: seq<RawMaterial>, id: string): (r: seq<RawMaterial>)
    ensures forall m :: m in r <==> m in c && m.id != id
    ensures MaterialIds(r) == MaterialIds(c) - {id}
    ensures id !in MaterialIds(c) ==> r == c
  {
    var r := Filter(c, HasOtherId(id));
    assert forall m :: m in r <==> m in c && m.id != id;
    assert id !in MaterialIds(c) ==> forall i :: 0 <= i < |c| ==> HasOtherId(id)(c[i]);
    r
  }

  /** Removal keeps the remaining entries in their original order. */
  lemma RemoveMaterialKeepsOrder(c: seq<RawMaterial>, id: string)
    ensures IsSubsequence(RemoveMaterial(c, id), c)
  {
    FilterKeepsOrder(c, HasOtherId(id));
  }

  /** In a catalog with distinct ids, removing a present id drops exactly one entry. */
  lemma {:induction false} RemoveMaterialLength(c: seq<RawMaterial>, id: string)
    requires IdsUnique(c)
    ensures |RemoveMaterial(c, id)| == if id in MaterialIds(c) then |c| - 1 else |c|
  {
    if id in MaterialIds(c) {
      var k :| 0 <= k < |c| && c[k].id == id;
      var a, b := c[..k], c[k + 1..];
      assert c == a + [c[k]] + b;
      forall i | 0 <= i < |a| ensures HasOtherId(id)(a[i]) {
        assert MaterialKey(c[i]) != MaterialKey(c[k]);
      }
      forall i | 0 <= i < |b| ensures HasOtherId(id)(b[i]) {
        assert b[i] == c[k + 1 + i];
        assert MaterialKey(c[k]) != MaterialKey(c[k + 1 + i]);
      }
      FilterDropsOne(a, c[k], b, HasOtherId(id));
    }
  }

  /** Removal keeps the catalog well formed. */
  lemma RemoveKeepsWellFormed(c: seq<RawMaterial>, id: string)
    requires WellFormed(c)
    ensures WellFormed(RemoveMaterial(c, id))
  {
    FilterKeepsKeysUnique(c, HasOtherId(id), MaterialKey);
  }

  /** Removing one entry does not change what the lookup of any other id finds. */
  lemma FindAfterRemove(c: seq<RawMaterial>, id: string, other: string)
    requires other != id
    ensures FindMaterial(RemoveMaterial(c, id), other) == FindMaterial(c, other)
  {
    FindAfterFilter(c, HasOtherId(id), HasId(other));
  }
}
