/** The fixed list of data bundles the storefront sells, and the lookup by id. */
module Catalog {
  import opened Common

  /** One offer. `price` is in pesewas (minor units of the cedi). */
  datatype Bundle = Bundle(id: int, name: string, data: string, price: int, icon: string, validity: string)
  {
    /** The fields a transaction copies from the offer (all but the icon). */
    function Snapshot(): (s: BundleSnapshot)
      ensures s.id == id && s.name == name && s.data == data
      ensures s.price == price && s.validity == validity
    {
      BundleSnapshot(id, name, data, price, validity)
    }
  }

  /** The four offers, in display order. */
  const Bundles: seq<Bundle> := [
    Bundle(1, "MTN Lite", "1GB", 460, "\U{1F4F2}", "1 day"),
    Bundle(2, "MTN Basic", "2GB", 850, "\U{1F4F1}", "3 days"),
    Bundle(3, "MTN Standard", "3GB", 1350, "\U{1F3AE}", "7 days"),
    Bundle(4, "MTN Plus", "4GB", 2350, "\U{2B50}", "14 days")
  ]

  /** `s.find(b => b.id === id)`: the first offer in `s` with that id, if any. */
  function FindById(s: seq<Bundle>, id: int): (r: Option<Bundle>)
    ensures r.Some? ==> r.value in s && r.value.id == id
    ensures r.None? <==> forall i :: 0 <= i < |s| ==> s[i].id != id
    ensures forall i :: 0 <= i < |s| && s[i].id == id && (forall j :: 0 <= j < i ==> s[j].id != id) ==>
              r == Some(s[i])
  {
    if s == [] then None
    else if s[0].id == id then Some(s[0])
    else FindById(s[1..], id)
  }

  /** The catalog lookup index.js performs when an offer is clicked. */
  function FindBundle(id: int): (r: Option<Bundle>)
    ensures r.Some? ==> r.value in Bundles && r.value.id == id
    ensures r.None? <==> forall b :: b in Bundles ==> b.id != id
  {
    FindById(Bundles, id)
  }

  /** Four offers, ids 1 to 4 in order (hence distinct and non-zero), every price positive. */
  lemma CatalogWellFormed()
    ensures |Bundles| == 4
    ensures forall i :: 0 <= i < |Bundles| ==> Bundles[i].id == i + 1 && Bundles[i].price > 0
    ensures forall i, j :: 0 <= i < j < |Bundles| ==> Bundles[i].id != Bundles[j].id
  {
  }

  /** The lookup finds exactly the ids 1 to 4, and id `k` names the k-th offer. */
  lemma FindBundleExactly(id: int)
    ensures FindBundle(id).Some? <==> 1 <= id <= 4
    ensures 1 <= id <= 4 ==> FindBundle(id) == Some(Bundles[id - 1])
  {
    CatalogWellFormed();
    if 1 <= id <= 4 {
      var b := FindBundle(id).value;
      assert b in Bundles;
      var i :| 0 <= i < |Bundles| && Bundles[i] == b;
      assert i == id - 1;
    }
  }

  /** Every catalog offer has a truthy id and a positive price. */
  lemma CatalogEntriesPayable(b: Bundle)
    requires b in Bundles
    ensures b.id != 0 && b.price > 0
  {
    CatalogWellFormed();
  }
}
