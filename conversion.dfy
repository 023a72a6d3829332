/**
 * The conversion helper (Helper/Conversion.php): shipping-speed and
 * carrier tables, and the item list sent with every preview and
 * fulfilment-order request.
 */
module Conversion {
  import opened Wrappers
  import opened Php
  import opened Magento

  const MappedMethods: set<string> :=
    {"amazonfulfillment_standard", "amazonfulfillment_priority", "amazonfulfillment_expedited",
     "tablerate_bestway", "freeshipping_freeshipping", "flatrate_flatrate"}

  /** The Amazon speed for a Magento shipping-method code, None for codes outside the table. */
  function ShippingSpeed(shippingMethod: string): (r: Option<string>)
    ensures r.Some? <==> shippingMethod in MappedMethods
    ensures r.Some? ==> r.value in {"Standard", "Priority", "Expedited"}
    ensures r == Some("Priority") <==> shippingMethod == "amazonfulfillment_priority"
    ensures r == Some("Expedited") <==> shippingMethod == "amazonfulfillment_expedited"
  {
    match shippingMethod
    case "amazonfulfillment_standard" => Some("Standard")
    case "amazonfulfillment_priority" => Some("Priority")
    case "amazonfulfillment_expedited" => Some("Expedited")
    case "tablerate_bestway" => Some("Standard")
    case "freeshipping_freeshipping" => Some("Standard")
    case "flatrate_flatrate" => Some("Standard")
    case _ => None
  }

  datatype CarrierInfo = CarrierInfo(carrierCode: string, title: string)

  /** The table of mail carriers Amazon reports. */
  function KnownCarrier(code: string): Option<CarrierInfo>
  {
    match code
    case "USPS" => Some(CarrierInfo("usps", "United States Postal Service"))
    case "UPS" => Some(CarrierInfo("ups", "United Parcel Service"))
    case "UPSM" => Some(CarrierInfo("ups", "United Parcel Service"))
    case "DHL" => Some(CarrierInfo("dhl", "DHL"))
    case "FEDEX" => Some(CarrierInfo("fedex", "Federal Express"))
    case _ => None
  }

  /** The Magento carrier code for an Amazon package's carrier. */
  function CarrierCode(code: string): (r: string)
    ensures KnownCarrier(code).Some? ==> r == KnownCarrier(code).value.carrierCode
    ensures KnownCarrier(code).None? ==> r == ToLower(ReplaceChar(code, ' ', '_'))
  {
    match KnownCarrier(code)
    case Some(info) => info.carrierCode
    case None => ToLower(ReplaceChar(code, ' ', '_'))
  }

  function CarrierTitle(code: string): (r: string)
    ensures KnownCarrier(code).Some? ==> r == KnownCarrier(code).value.title
    ensures KnownCarrier(code).None? ==> r == code
  {
    match KnownCarrier(code)
    case Some(info) => info.title
    case None => code
  }

  /** UPS and UPSM are the same carrier. */
  lemma UpsVariantsAgree()
    ensures CarrierCode("UPS") == CarrierCode("UPSM") == "ups"
    ensures CarrierTitle("UPS") == CarrierTitle("UPSM")
  {
  }

  /** Whatever Amazon reports, the carrier code has no spaces and no upper-case letters, and keeps its length for unknown carriers. */
  lemma {:induction false} CarrierCodeNormalised(code: string)
    ensures forall i :: 0 <= i < |CarrierCode(code)| ==> CarrierCode(code)[i] != ' ' && !('A' <= CarrierCode(code)[i] <= 'Z')
    ensures KnownCarrier(code).None? ==> |CarrierCode(code)| == |code|
  {
    var r := CarrierCode(code);
    if KnownCarrier(code).None? {
      var t := ReplaceChar(code, ' ', '_');
      forall i | 0 <= i < |r| ensures r[i] != ' ' && !('A' <= r[i] <= 'Z') {
        assert r[i] == LowerChar(t[i]);
        assert t[i] != ' ';
      }
    }
  }

  /** One entry of the `Items` member list. */
  datatype FulfillmentItem = FulfillmentItem(sellerSku: string, itemId: string, quantity: int)

  /** `['member' => data]` for a non-empty list, else the empty array. */
  datatype ItemsArray = NoItems | Members(data: seq<FulfillmentItem>)

  function WrapItems(data: seq<FulfillmentItem>): (r: ItemsArray)
    ensures r.NoItems? <==> data == []
    ensures r.Members? ==> r.data == data
  {
    if data == [] then NoItems else Members(data)
  }

  /** Lines sent to Amazon: FBA-enabled products that Magento can ship. */
  predicate Eligible(item: LineItem)
  {
    item.product.asinEnabled && item.canShip
  }

  function ItemData(item: LineItem): (r: FulfillmentItem)
    ensures r.sellerSku == (if Truthy(item.product.merchantSku) then item.product.merchantSku else item.sku)
    ensures r.quantity == (if item.qtyToShip != 0 then item.qtyToShip else item.qtyOrdered)
    ensures r.itemId == (if Truthy(item.quoteId) then item.quoteId else item.quoteItemId)
  {
    FulfillmentItem(
      if Truthy(item.product.merchantSku) then item.product.merchantSku else item.sku,
      if Truthy(item.quoteId) then item.quoteId else item.quoteItemId,
      if item.qtyToShip != 0 then item.qtyToShip else item.qtyOrdered)
  }

  /** The item data of the eligible lines, in line order. */
  function EligibleItems(items: seq<LineItem>): seq<FulfillmentItem>
  {
    if items == [] then []
    else EligibleItems(items[..|items| - 1]) + (if Eligible(items[|items| - 1]) then [ItemData(items[|items| - 1])] else [])
  }

  /** The list is built item by item: concatenating carts concatenates their lists. */
  lemma {:induction false} EligibleItemsAppend(a: seq<LineItem>, b: seq<LineItem>)
    ensures EligibleItems(a + b) == EligibleItems(a) + EligibleItems(b)
    decreases |b|
  {
    if b == [] {
      assert a + b == a;
    } else {
      var b' := b[..|b| - 1];
      assert (a + b)[..|a + b| - 1] == a + b';
      EligibleItemsAppend(a, b');
    }
  }

  /** Every entry comes from an eligible line, and every eligible line contributes one (order shown by EligibleItemsAppend). */
  lemma {:induction false} EligibleItemsExact(items: seq<LineItem>)
    ensures |EligibleItems(items)| <= |items|
    ensures forall d :: d in EligibleItems(items) ==> exists i :: 0 <= i < |items| && Eligible(items[i]) && d == ItemData(items[i])
    ensures forall i :: 0 <= i < |items| && Eligible(items[i]) ==> ItemData(items[i]) in EligibleItems(items)
    ensures EligibleItems(items) == [] <==> forall i :: 0 <= i < |items| ==> !Eligible(items[i])
  {
    if items != [] {
      var init := items[..|items| - 1];
      EligibleItemsExact(init);
      forall i | 0 <= i < |init| ensures init[i] == items[i] { }
    }
  }

  /** getAmazonItemsArrayFromRateRequest. */
  method GetAmazonItemsArrayFromRateRequest(items: seq<LineItem>) returns (r: ItemsArray)
    ensures r == WrapItems(EligibleItems(items))
  {
    var data: seq<FulfillmentItem> := [];
    var i := 0;
    while i < |items|
      invariant 0 <= i <= |items|
      invariant data == EligibleItems(items[..i])
    {
      assert items[..i + 1][..i] == items[..i];
      if items[i].product.asinEnabled && items[i].canShip {
        data := data + [ItemData(items[i])];
      }
      i := i + 1;
    }
    assert items[..i] == items;
    r := if data != [] then Members(data) else NoItems;
  }
}
