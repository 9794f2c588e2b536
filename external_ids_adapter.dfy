/** The external IDs adapter: turns a product's marketplace GTIN and MPN into the list of
    Commerce external ID objects, leaving out the ones that are not set. */
module ExternalIdsAdapter {
  import opened Php

  /** The external ID types. */
  datatype IdType = Gtin | Mpn

  /** A Commerce external ID object. */
  datatype ExternalId = ExternalId(kind: IdType, value: string)

  /** What the adapter reads from a product: its marketplace GTIN and MPN (null when unset). */
  datatype MarketplaceIds = MarketplaceIds(gtin: Option<string>, mpn: Option<string>)

  /** `convertToSource`; None stands for a null product. A GTIN entry comes first when the GTIN
      is truthy, then an MPN entry when the MPN is truthy, each carrying the value unchanged. */
  function ConvertToSource(product: Option<MarketplaceIds>): (r: seq<ExternalId>)
    ensures |r| <= 2
    ensures product.None? ==> r == []
    ensures (exists i :: 0 <= i < |r| && r[i].kind == Gtin) <==> product.Some? && TruthyOpt(product.value.gtin)
    ensures (exists i :: 0 <= i < |r| && r[i].kind == Mpn) <==> product.Some? && TruthyOpt(product.value.mpn)
    ensures forall i, j :: 0 <= i < j < |r| ==> r[i].kind == Gtin && r[j].kind == Mpn
    ensures forall i :: 0 <= i < |r| && r[i].kind == Gtin ==> Some(r[i].value) == product.value.gtin
    ensures forall i :: 0 <= i < |r| && r[i].kind == Mpn ==> Some(r[i].value) == product.value.mpn
  {
    if product.None? then []
    else
      var p := product.value;
      var gtinIds := if TruthyOpt(p.gtin) then [ExternalId(Gtin, p.gtin.value)] else [];
      var mpnIds := if TruthyOpt(p.mpn) then [ExternalId(Mpn, p.mpn.value)] else [];
      var r := gtinIds + mpnIds;
      assert TruthyOpt(p.gtin) ==> r[0].kind == Gtin;
      assert TruthyOpt(p.mpn) ==> r[|r| - 1].kind == Mpn;
      r
  }

  /** A GTIN of "0" or "" is dropped like a missing one. */
  lemma FalsyGtinDropped(mpn: Option<string>)
    ensures ConvertToSource(Some(MarketplaceIds(Some("0"), mpn))) == ConvertToSource(Some(MarketplaceIds(None, mpn)))
    ensures ConvertToSource(Some(MarketplaceIds(Some(""), mpn))) == ConvertToSource(Some(MarketplaceIds(None, mpn)))
  {
  }
}
