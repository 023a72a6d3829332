/**
 * The product-save plugin (Plugin/ProductSkuConfig.php): saving an
 * FBA-enabled product asks Amazon for its SKU and merchant SKU and, when
 * Amazon knows either, writes the summed quantity to the product's stock.
 */
module ProductSkuConfig {
  import opened Wrappers
  import opened Php
  import opened Config
  import opened Magento
  import opened InventoryService

  /** The admin message the save raises: the stock was updated to a quantity, or Amazon has no such SKU. */
  datatype SkuMessage = StockUpdated(qty: int) | NoAmazonSku(sku: string)

  /** The SKUs asked for: the product's SKU, then its merchant SKU when that is truthy. */
  function ProductQuerySkus(p: CatalogProduct): (r: seq<string>)
    ensures |r| >= 1 && r[0] == p.sku
    ensures |r| == 2 <==> Truthy(p.merchantSku.GetOr(""))
    ensures |r| == 2 ==> r[1] == p.merchantSku.value
    ensures |r| <= 2
  {
    if Truthy(p.merchantSku.GetOr("")) then [p.sku, p.merchantSku.value] else [p.sku]
  }

  /** Whether some returned record carries an ASIN. */
  function AnyAsin(records: seq<SupplyRecord>): bool
  {
    if records == [] then false
    else AnyAsin(records[..|records| - 1]) || Truthy(records[|records| - 1].asin)
  }

  lemma {:induction false} AnyAsinIff(records: seq<SupplyRecord>)
    ensures AnyAsin(records) <==> exists i :: 0 <= i < |records| && Truthy(records[i].asin)
  {
    if records != [] {
      var init := records[..|records| - 1];
      AnyAsinIff(init);
      if exists i :: 0 <= i < |records| && Truthy(records[i].asin) {
        var i :| 0 <= i < |records| && Truthy(records[i].asin);
        if i < |init| {
          assert init[i] == records[i];
        }
      }
      if exists i :: 0 <= i < |init| && Truthy(init[i].asin) {
        var i :| 0 <= i < |init| && Truthy(init[i].asin);
        assert records[i] == init[i];
      }
    }
  }

  /** The sum of the in-stock quantities of all returned records, whatever their availability. */
  function SupplyTotal(records: seq<SupplyRecord>): int
  {
    if records == [] then 0 else SupplyTotal(records[..|records| - 1]) + records[|records| - 1].inStock
  }

  lemma {:induction false} SupplyTotalAppend(a: seq<SupplyRecord>, b: seq<SupplyRecord>)
    ensures SupplyTotal(a + b) == SupplyTotal(a) + SupplyTotal(b)
    decreases |b|
  {
    if b == [] {
      assert a + b == a;
    } else {
      var b' := b[..|b| - 1];
      assert (a + b)[..|a + b| - 1] == a + b';
      SupplyTotalAppend(a, b');
    }
  }

  /** The supply loop: whether Amazon knows the SKU, and the summed quantity. */
  method SumSupply(supplyList: seq<SupplyRecord>) returns (found: bool, quantities: int)
    ensures found == AnyAsin(supplyList) && quantities == SupplyTotal(supplyList)
  {
    found := false;
    quantities := 0;
    var i := 0;
    while i < |supplyList|
      invariant 0 <= i <= |supplyList|
      invariant found == AnyAsin(supplyList[..i]) && quantities == SupplyTotal(supplyList[..i])
    {
      assert supplyList[..i + 1][..i] == supplyList[..i];
      if Truthy(supplyList[i].asin) {
        found := true;
      }
      quantities := quantities + supplyList[i].inStock;
      i := i + 1;
    }
    assert supplyList[..i] == supplyList;
  }

  /** Whether Amazon's answer shows that it knows the product. */
  predicate KnownAtAmazon(response: Option<SupplyResponse>)
  {
    response.Some? && AnyAsin(response.value.members)
  }

  /**
   * afterSave. Returns the SKUs asked for (None: no call) and the message.
   * A product that is not FBA-enabled causes neither; otherwise a product
   * Amazon knows gets the summed quantity, in stock exactly when it is
   * positive, and any other product gets an error message and no write.
   */
  method AfterSave(c: ScopeConfig, product: CatalogProduct, stock: StockRegistry, client: SupplyClient)
    returns (query: Option<seq<string>>, message: Option<SkuMessage>)
    modifies stock
    ensures !product.fbaEnabled ==> query == None && message == None && stock.items == old(stock.items)
    ensures product.fbaEnabled ==>
      var response := GetFulfillmentInventoryList(c, ProductQuerySkus(product), "", client);
      query == Some(ProductQuerySkus(product)) &&
      (KnownAtAmazon(response) ==>
         var qty := SupplyTotal(response.value.members);
         stock.items == old(stock.items)[product.entityId := Restocked(StockOf(old(stock.items), product.entityId), qty)]
         && message == Some(StockUpdated(qty))) &&
      (!KnownAtAmazon(response) ==> stock.items == old(stock.items) && message == Some(NoAmazonSku(product.sku)))
  {
    query := None;
    message := None;
    if product.fbaEnabled {
      var skus := [product.sku];
      if Truthy(product.merchantSku.GetOr("")) {
        skus := skus + [product.merchantSku.value];
      }
      assert skus == ProductQuerySkus(product);
      query := Some(skus);
      var found := false;
      var quantities := 0;
      var response := GetFulfillmentInventoryList(c, skus, "", client);
      if response.Some? {
        var supplyList := response.value.members;
        if supplyList != [] {
          found, quantities := SumSupply(supplyList);
        }
      }
      if found {
        var stockItem := stock.StockItemOf(product.entityId);
        stockItem := stockItem.(qty := quantities);
        if quantities > 0 {
          stockItem := stockItem.(isInStock := true);
        } else {
          stockItem := stockItem.(isInStock := false);
        }
        stock.UpdateStockItem(product.entityId, stockItem);
        message := Some(StockUpdated(quantities));
      } else {
        message := Some(NoAmazonSku(product.sku));
      }
    }
  }
}
