/**
 * The destination catalog: the static, read-only list of destination records every page
 * reads, and the lookup by id (`destinations.find(d => d.id === id)`).
 * Fields are the ones the pages read; `rating` is a number in 0.0..5.0, kept as a real
 * because only its order matters.
 */
module Catalog {
  import opened Wrappers

  datatype Destination = Destination(
    id: int,
    name: string,
    country: string,
    continent: string,
    description: string,
    category: string,
    travelType: seq<string>,
    topAttractions: seq<string>,
    budgetLevel: string,
    bestSeason: string,
    duration: string,
    locationType: Option<string>,
    rating: real,
    price: string,
    image: string,
    isHiddenGem: bool,
    currency: string,
    overview: Option<string>,
    safetyTips: Option<seq<string>>,
    localTransport: Option<seq<string>>,
    nearbyDestinations: Option<seq<string>>)

  /** The catalog never holds two records with the same id. */
  predicate UniqueIds(catalog: seq<Destination>) {
    forall i, j :: 0 <= i < j < |catalog| ==> catalog[i].id != catalog[j].id
  }

  predicate HasId(catalog: seq<Destination>, id: int) {
    exists k :: 0 <= k < |catalog| && catalog[k].id == id
  }

  /** `destinations.find(d => d.id === id)`: the first record with that id, if any. */
  function FindById(catalog: seq<Destination>, id: int): (r: Option<Destination>)
    ensures r.None? <==> !HasId(catalog, id)
    ensures r.Some? ==> exists k :: 0 <= k < |catalog| && catalog[k] == r.value && r.value.id == id
                                    && forall j :: 0 <= j < k ==> catalog[j].id != id
  {
    if catalog == [] then None
    else if catalog[0].id == id then Some(catalog[0])
    else
      var r := FindById(catalog[1..], id);
      assert HasId(catalog, id) ==> HasId(catalog[1..], id) by {
        if HasId(catalog, id) {
          var k :| 0 <= k < |catalog| && catalog[k].id == id;
          assert catalog[1..][k - 1].id == id;
        }
      }
      assert HasId(catalog[1..], id) ==> HasId(catalog, id) by {
        if HasId(catalog[1..], id) {
          var k :| 0 <= k < |catalog[1..]| && catalog[1..][k].id == id;
          assert catalog[k + 1].id == id;
        }
      }
      if r.Some? then
        assert exists k :: 0 <= k < |catalog| && catalog[k] == r.value && r.value.id == id
                           && forall j :: 0 <= j < k ==> catalog[j].id != id by {
          var k :| 0 <= k < |catalog[1..]| && catalog[1..][k] == r.value && r.value.id == id
                   && forall j :: 0 <= j < k ==> catalog[1..][j].id != id;
          assert catalog[k + 1] == r.value;
          assert forall j :: 0 <= j < k + 1 ==> catalog[j].id != id by {
            forall j | 0 <= j < k + 1 ensures catalog[j].id != id {
              if j > 0 { assert catalog[j] == catalog[1..][j - 1]; }
            }
          }
        }
        r
      else r
  }

  /** With unique ids, the record found for a catalog member's id is that member. */
  lemma FindByIdOfMember(catalog: seq<Destination>, k: nat)
    requires UniqueIds(catalog) && k < |catalog|
    ensures FindById(catalog, catalog[k].id) == Some(catalog[k])
  {
    var r := FindById(catalog, catalog[k].id);
    assert HasId(catalog, catalog[k].id);
  }
}
