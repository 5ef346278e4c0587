/** The static property catalog and its lookup by id (lib/properties.ts). */
module Catalog {
  import opened Wrappers
  import opened ReviewTypes

  /** `k` is the position of the first entry whose id is `id`. */
  ghost predicate FirstWithId(catalog: seq<Property>, id: string, k: int) {
    0 <= k < |catalog| && catalog[k].id == id && forall j :: 0 <= j < k ==> catalog[j].id != id
  }

  /**
   * `properties.find(p => p.id === id) || null`: the first catalog entry with
   * that id, or nothing when no entry has it.
   */
  function GetPropertyById(catalog: seq<Property>, id: string): (r: Option<Property>)
    ensures r.Some? ==> r.value.id == id
    ensures r.None? <==> forall k :: 0 <= k < |catalog| ==> catalog[k].id != id
    ensures r.Some? ==> exists k :: FirstWithId(catalog, id, k) && catalog[k] == r.value
    decreases |catalog|
  {
    if catalog == [] then None
    else if catalog[0].id == id then
      Some(catalog[0])
    else
      var r := GetPropertyById(catalog[1..], id);
      assert forall j :: 1 <= j < |catalog| ==> catalog[j] == catalog[1..][j - 1];
      assert r.Some? ==> exists k :: FirstWithId(catalog, id, k) && catalog[k] == r.value by {
        if r.Some? {
          var k :| FirstWithId(catalog[1..], id, k) && catalog[1..][k] == r.value;
          assert catalog[k + 1] == r.value;
          assert forall j :: 0 <= j < k + 1 ==> catalog[j].id != id by {
            forall j | 0 <= j < k + 1 ensures catalog[j].id != id {
              if j > 0 { assert catalog[j] == catalog[1..][j - 1]; }
            }
          }
        }
      }
      r
  }
}
