/**
 * The product-page delivery estimate endpoint
 * (Controller/Ajax/FBAData.php): it checks the posted postcode, product
 * id and quantity, builds a placeholder address in the store's country
 * and a one-item list, and answers with the estimate rows, if any.
 */
module FbaData {
  import opened Wrappers
  import opened Php
  import opened Config
  import opened Magento
  import opened Conversion
  import opened OutboundService

  const NoDataMessage := "No data available."
  const UnableMessage := "Unable to make Amazon FBA Request."
  const RatesMessage := "Rates available."

  /** The JSON answer; `data` is None when the answer has no `data` key. */
  datatype FbaResponse = FbaResponse(result: bool, message: string, data: Option<seq<Estimate>>)

  const DefaultResponse := FbaResponse(true, NoDataMessage, Some([]))
  const UnableResponse := FbaResponse(false, UnableMessage, None)

  /** The posted parameters. */
  type Params = map<string, string>

  /** An estimate is worth asking for: a truthy postcode and a numeric product id and quantity. */
  predicate ValidParams(params: Params)
  {
    params != map[] && "pcode" in params && Truthy(params["pcode"])
    && "pid" in params && IsNumeric(params["pid"]) && "qty" in params && IsNumeric(params["qty"])
  }

  /** A truthy postcode with a plain-digit product id and quantity is answered; an empty product id is not. */
  lemma DigitParamsAreValid(pcode: string, pid: string, qty: string)
    requires Truthy(pcode) && pid != [] && qty != []
    requires forall i :: 0 <= i < |pid| ==> IsDigit(pid[i])
    requires forall i :: 0 <= i < |qty| ==> IsDigit(qty[i])
    ensures ValidParams(map["pcode" := pcode, "pid" := pid, "qty" := qty])
    ensures !ValidParams(map["pcode" := pcode, "pid" := "", "qty" := qty])
  {
    DigitStringsAreNumeric(pid);
    DigitStringsAreNumeric(qty);
    var bad := map["pcode" := pcode, "pid" := "", "qty" := qty];
    assert bad["pid"] == "";
  }

  /** The placeholder address: the store's country, the posted postcode and fixed placeholders. */
  function EstimateAddress(country: string, pcode: string): (a: map<string, string>)
    ensures a.Keys == {"CountryCode", "PostalCode", "City", "Line1", "Name", "StateOrProvinceCode"}
    ensures a["CountryCode"] == country && a["PostalCode"] == pcode
    ensures a["City"] == "Placeholder" && a["Line1"] == "100 main st" && a["Name"] == "john doe" && a["StateOrProvinceCode"] == "WA"
  {
    map["CountryCode" := country, "PostalCode" := pcode, "City" := "Placeholder", "Line1" := "100 main st",
        "Name" := "john doe", "StateOrProvinceCode" := "WA"]
  }

  /**
   * The quantity asked for: a falsy quantity (such as "0") becomes 1.
   * `quantityValue` is the number a numeric quantity text denotes.
   */
  function RequestedQuantity(qty: string, quantityValue: string -> int): (n: int)
    ensures !Truthy(qty) ==> n == 1
    ensures Truthy(qty) ==> n == quantityValue(qty)
  {
    if Truthy(qty) then quantityValue(qty) else 1
  }

  /** The SKU asked for: the merchant SKU when truthy, else the product SKU. */
  function EstimateSku(p: Product): (s: string)
    ensures Truthy(p.merchantSku) ==> s == p.merchantSku
    ensures !Truthy(p.merchantSku) ==> s == p.sku
  {
    if Truthy(p.merchantSku) then p.merchantSku else p.sku
  }

  /**
   * The item list: one item for the loaded product, keyed by the posted
   * id, unless the chosen SKU is empty. `load` is the product load by
   * id (an unknown id loads an empty product).
   */
  function EstimateItems(pid: string, qty: string, load: string -> Product, quantityValue: string -> int): (r: ItemsArray)
    ensures r.NoItems? <==> !Truthy(EstimateSku(load(pid)))
    ensures r.Members? ==> r.data == [FulfillmentItem(EstimateSku(load(pid)), pid, RequestedQuantity(qty, quantityValue))]
  {
    var sku := EstimateSku(load(pid));
    if Truthy(sku) then Members([FulfillmentItem(sku, pid, RequestedQuantity(qty, quantityValue))]) else NoItems
  }

  /**
   * execute: an unreadable request answers "unable"; an invalid one, or
   * one without an item or without estimate rows, the default answer;
   * otherwise "Rates available." with the rows. `storeId` is the current
   * store.
   */
  method Execute(c: ScopeConfig, storeId: nat, params: Outcome<Params>, load: string -> Product,
                 quantityValue: string -> int, client: PreviewClient)
    returns (response: FbaResponse)
    ensures params.Threw? ==> response == UnableResponse
    ensures params.Returned? && !ValidParams(params.response) ==> response == DefaultResponse
    ensures params.Returned? && ValidParams(params.response) ==>
      var p := params.response;
      var items := EstimateItems(p["pid"], p["qty"], load, quantityValue);
      var rows := EstimateRows(c, EstimateAddress(StoreCountry(c, storeId), p["pcode"]), items, client);
      response == (if items.Members? && rows != [] then FbaResponse(true, RatesMessage, Some(rows)) else DefaultResponse)
  {
    response := DefaultResponse;
    if params.Threw? {
      response := UnableResponse;
      return;
    }
    var p := params.response;
    if p != map[] && "pcode" in p && Truthy(p["pcode"]) && "pid" in p && IsNumeric(p["pid"]) && "qty" in p && IsNumeric(p["qty"]) {
      var pcode := p["pcode"];
      var pid := p["pid"];
      var qty := if Truthy(p["qty"]) then quantityValue(p["qty"]) else 1;
      var address := EstimateAddress(StoreCountry(c, storeId), pcode);
      var product := load(pid);
      var items := NoItems;
      var sku := product.sku;
      if Truthy(product.merchantSku) {
        sku := product.merchantSku;
      }
      if Truthy(sku) {
        items := Members([FulfillmentItem(sku, pid, qty)]);
      }
      if items.Members? {
        var rates := GetProductEstimate(c, address, items, client);
        if rates != [] {
          response := FbaResponse(true, RatesMessage, Some(rates));
        }
      }
    }
  }
}
