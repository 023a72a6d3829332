/**
 * The FBA outbound service (Model/Service/Outbound.php): fulfilment
 * previews and the product-page estimate built from them, creating,
 * reading and cancelling fulfilment orders.
 */
module OutboundService {
  import opened Wrappers
  import opened Php
  import opened Config
  import opened McfAbstract
  import opened Conversion
  import opened Magento
  import opened KeySort

  const ServiceName := "/FulfillmentOutboundShipment/"
  const ServiceClassName := "FBAOutboundServiceMWS"

  // ---------------------------------------------------------------- previews

  /** An estimated fee, in minor currency units. */
  datatype Fee = Fee(name: string, amount: int)

  /** An arrival date as sent (non-empty) with its timestamp; date parsing itself is not modelled. */
  datatype ArrivalDate = ArrivalDate(text: string, epoch: int)

  datatype PreviewShipment = PreviewShipment(earliest: Option<ArrivalDate>, latest: Option<ArrivalDate>)

  datatype FulfillmentPreview = FulfillmentPreview(
    isFulfillable: string, speed: string, fees: seq<Fee>, shipments: seq<PreviewShipment>)

  datatype PreviewRequest = PreviewRequest(sellerId: string, address: map<string, string>, items: ItemsArray)

  datatype PreviewResponse = PreviewResponse(previews: seq<FulfillmentPreview>)

  type PreviewClient = PreviewRequest -> Outcome<PreviewResponse>

  predicate Fulfillable(p: FulfillmentPreview)
  {
    p.isFulfillable != "false"
  }

  function PreviewRequestFor(c: ScopeConfig, address: map<string, string>, items: ItemsArray): (r: PreviewRequest)
    ensures r.sellerId == SellerId(c, 0) && r.address == address && r.items == items
  {
    PreviewRequest(SellerId(c, 0), address, items)
  }

  /** getFulfillmentPreview: a thrown exception becomes None. */
  function GetFulfillmentPreview(c: ScopeConfig, address: map<string, string>, items: ItemsArray, client: PreviewClient): (r: Option<PreviewResponse>)
    ensures r.None? <==> client(PreviewRequestFor(c, address, items)).Threw?
    ensures r.Some? ==> r.value == client(PreviewRequestFor(c, address, items)).response
  {
    Catch(client(PreviewRequestFor(c, address, items)))
  }

  // ---------------------------------------------------------------- product estimate

  /** One estimate row of the product-page delivery block. */
  datatype Estimate = Estimate(speed: string, earliest: string, latest: string, cost: int)

  /**
   * The variables of getProductEstimate's loops. The shipment loop resets
   * time, dates and fee on every shipment.
   */
  datatype EstimateState = EstimateState(
    counter: int, time: int, earliest: string, latest: string, cost: int, dates: map<int, Estimate>)

  const InitialEstimate := EstimateState(0, 0, "", "", 0, map[])

  /** The first fee's amount, or 0 without fees. */
  function FirstFee(fees: seq<Fee>): (a: int)
    ensures fees != [] ==> a == fees[0].amount
    ensures fees == [] ==> a == 0
  {
    if fees == [] then 0 else fees[0].amount
  }

  /** The time used for the sort key: the earliest arrival when present, else the latest, else 0. */
  function ShipmentTime(sh: PreviewShipment): (t: int)
    ensures sh.earliest.Some? ==> t == sh.earliest.value.epoch
    ensures sh.earliest.None? && sh.latest.Some? ==> t == sh.latest.value.epoch
    ensures sh.earliest.None? && sh.latest.None? ==> t == 0
  {
    if sh.earliest.Some? then sh.earliest.value.epoch
    else if sh.latest.Some? then sh.latest.value.epoch
    else 0
  }

  function DateText(d: Option<ArrivalDate>): string
  {
    if d.Some? then d.value.text else ""
  }

  /** One pass of the shipment loop. */
  function ShipmentStep(st: EstimateState, fees: seq<Fee>, sh: PreviewShipment): EstimateState
  {
    st.(counter := st.counter + 1, time := ShipmentTime(sh), earliest := DateText(sh.earliest),
        latest := DateText(sh.latest), cost := FirstFee(fees))
  }

  function ShipmentsFold(st: EstimateState, fees: seq<Fee>, ships: seq<PreviewShipment>): EstimateState
  {
    if ships == [] then st
    else ShipmentStep(ShipmentsFold(st, fees, ships[..|ships| - 1]), fees, ships[|ships| - 1])
  }

  /** One pass of the preview loop: a fulfillable preview writes `dates[time + counter]`. */
  function PreviewStep(st: EstimateState, p: FulfillmentPreview): EstimateState
  {
    if !Fulfillable(p) then st
    else
      var s := ShipmentsFold(st, p.fees, p.shipments);
      s.(dates := s.dates[s.time + s.counter := Estimate(p.speed, s.earliest, s.latest, s.cost)])
  }

  function EstimateFold(previews: seq<FulfillmentPreview>): EstimateState
  {
    if previews == [] then InitialEstimate
    else PreviewStep(EstimateFold(previews[..|previews| - 1]), previews[|previews| - 1])
  }

  /** The number of shipments in fulfillable previews. */
  function ShipmentCount(previews: seq<FulfillmentPreview>): nat
  {
    if previews == [] then 0
    else
      var p := previews[|previews| - 1];
      ShipmentCount(previews[..|previews| - 1]) + (if Fulfillable(p) then |p.shipments| else 0)
  }

  lemma {:induction false} ShipmentsFoldFacts(st: EstimateState, fees: seq<Fee>, ships: seq<PreviewShipment>)
    ensures ShipmentsFold(st, fees, ships).counter == st.counter + |ships|
    ensures ShipmentsFold(st, fees, ships).dates == st.dates
    ensures ships != [] ==>
      var s := ShipmentsFold(st, fees, ships);
      var last := ships[|ships| - 1];
      s.time == ShipmentTime(last) && s.earliest == DateText(last.earliest) && s.latest == DateText(last.latest)
      && s.cost == FirstFee(fees)
  {
    if ships != [] {
      ShipmentsFoldFacts(st, fees, ships[..|ships| - 1]);
    }
  }

  /** The counter counts every shipment of every fulfillable preview seen so far. */
  lemma {:induction false} CounterCountsShipments(previews: seq<FulfillmentPreview>)
    ensures EstimateFold(previews).counter == ShipmentCount(previews)
  {
    if previews != [] {
      var init := previews[..|previews| - 1];
      var p := previews[|previews| - 1];
      CounterCountsShipments(init);
      if Fulfillable(p) {
        ShipmentsFoldFacts(EstimateFold(init), p.fees, p.shipments);
      }
    }
  }

  /** Every estimate row comes from a fulfillable preview, with that preview's speed. */
  lemma {:induction false} EstimateOnlyFulfillable(previews: seq<FulfillmentPreview>)
    ensures forall k :: k in EstimateFold(previews).dates ==>
      exists j :: 0 <= j < |previews| && Fulfillable(previews[j]) && EstimateFold(previews).dates[k].speed == previews[j].speed
  {
    if previews != [] {
      var init := previews[..|previews| - 1];
      var p := previews[|previews| - 1];
      EstimateOnlyFulfillable(init);
      var before := EstimateFold(init);
      var after := EstimateFold(previews);
      if Fulfillable(p) {
        ShipmentsFoldFacts(before, p.fees, p.shipments);
      }
      forall k | k in after.dates
        ensures exists j :: 0 <= j < |previews| && Fulfillable(previews[j]) && after.dates[k].speed == previews[j].speed
      {
        if Fulfillable(p) && k == ShipmentsFold(before, p.fees, p.shipments).time + ShipmentsFold(before, p.fees, p.shipments).counter {
          assert after.dates[k].speed == previews[|previews| - 1].speed;
        } else {
          assert k in before.dates && after.dates[k] == before.dates[k];
          var j :| 0 <= j < |init| && Fulfillable(init[j]) && before.dates[k].speed == init[j].speed;
          assert previews[j] == init[j];
        }
      }
    }
  }

  /**
   * The row written for the last preview, when it is fulfillable and has
   * shipments: keyed by its last shipment's time plus the shipment counter,
   * carrying that shipment's dates and the preview's first fee.
   */
  lemma LastPreviewRow(previews: seq<FulfillmentPreview>)
    requires previews != [] && Fulfillable(previews[|previews| - 1]) && previews[|previews| - 1].shipments != []
    ensures
      var p := previews[|previews| - 1];
      var last := p.shipments[|p.shipments| - 1];
      var key := ShipmentTime(last) + ShipmentCount(previews);
      key in EstimateFold(previews).dates &&
      EstimateFold(previews).dates[key] == Estimate(p.speed, DateText(last.earliest), DateText(last.latest), FirstFee(p.fees))
  {
    var init := previews[..|previews| - 1];
    var p := previews[|previews| - 1];
    ShipmentsFoldFacts(EstimateFold(init), p.fees, p.shipments);
    CounterCountsShipments(init);
  }

  /** The shipment loop of getProductEstimate. */
  method FoldShipments(st0: EstimateState, fees: seq<Fee>, ships: seq<PreviewShipment>) returns (st: EstimateState)
    ensures st == ShipmentsFold(st0, fees, ships)
  {
    st := st0;
    var j := 0;
    while j < |ships|
      invariant 0 <= j <= |ships|
      invariant st == ShipmentsFold(st0, fees, ships[..j])
    {
      assert ships[..j + 1][..j] == ships[..j];
      var latest := "";
      var earliest := "";
      var time := 0;
      var fee := 0;
      if fees != [] {
        fee := fees[0].amount;
      }
      if ships[j].latest.Some? {
        latest := ships[j].latest.value.text;
        time := ships[j].latest.value.epoch;
      }
      if ships[j].earliest.Some? {
        earliest := ships[j].earliest.value.text;
        time := ships[j].earliest.value.epoch;
      }
      st := EstimateState(st.counter + 1, time, earliest, latest, fee, st.dates);
      j := j + 1;
    }
    assert ships[..j] == ships;
  }

  /** The preview loop of getProductEstimate. */
  method FoldPreviews(previews: seq<FulfillmentPreview>) returns (st: EstimateState)
    ensures st == EstimateFold(previews)
  {
    st := InitialEstimate;
    var i := 0;
    while i < |previews|
      invariant 0 <= i <= |previews|
      invariant st == EstimateFold(previews[..i])
    {
      assert previews[..i + 1][..i] == previews[..i];
      var p := previews[i];
      if p.isFulfillable != "false" {
        st := FoldShipments(st, p.fees, p.shipments);
        st := st.(dates := st.dates[st.time + st.counter := Estimate(p.speed, st.earliest, st.latest, st.cost)]);
      }
      i := i + 1;
    }
    assert previews[..i] == previews;
  }

  /** The estimate rows of a preview call: its dates map's values in ascending key order, none without a preview. */
  ghost function EstimateRows(c: ScopeConfig, address: map<string, string>, items: ItemsArray, client: PreviewClient): seq<Estimate>
  {
    var preview := GetFulfillmentPreview(c, address, items, client);
    if preview.None? then []
    else
      var dates := EstimateFold(preview.value.previews).dates;
      seq(|dates|, i requires 0 <= i < |dates| => dates[SortedKeys(dates.Keys)[i]])
  }

  /**
   * getProductEstimate: the estimate rows of the preview's dates map, in
   * ascending key order; no rows without a preview.
   */
  method GetProductEstimate(c: ScopeConfig, address: map<string, string>, items: ItemsArray, client: PreviewClient)
    returns (rates: seq<Estimate>)
    ensures GetFulfillmentPreview(c, address, items, client).None? ==> rates == []
    ensures GetFulfillmentPreview(c, address, items, client).Some? ==>
      var dates := EstimateFold(GetFulfillmentPreview(c, address, items, client).value.previews).dates;
      |rates| == |dates| &&
      forall i :: 0 <= i < |rates| ==> rates[i] == dates[SortedKeys(dates.Keys)[i]]
    ensures rates == EstimateRows(c, address, items, client)
  {
    rates := [];
    var preview := GetFulfillmentPreview(c, address, items, client);
    if preview.None? {
      return;
    }
    var st := FoldPreviews(preview.value.previews);
    rates := SortedRows(st.dates);
  }

  /** No fulfillable preview, no estimate rows. */
  lemma {:induction false} NothingFulfillableNoRows(previews: seq<FulfillmentPreview>)
    requires forall j :: 0 <= j < |previews| ==> !Fulfillable(previews[j])
    ensures EstimateFold(previews).dates == map[]
  {
    if previews != [] {
      NothingFulfillableNoRows(previews[..|previews| - 1]);
    }
  }

  // ---------------------------------------------------------------- fulfilment orders

  datatype CreateOrderRequest = CreateOrderRequest(
    sellerId: string,
    fulfillmentPolicy: string,
    destinationAddress: map<string, string>,
    sellerFulfillmentOrderId: string,
    displayableOrderId: string,
    displayableOrderDateTime: string,
    displayableOrderComment: string,
    shippingSpeedCategory: Option<string>,
    items: ItemsArray,
    notificationEmailList: Option<seq<string>>)

  /** The create response; `responseMetadata` is None when the response carries none. */
  datatype CreateOrderResponse = CreateOrderResponse(responseMetadata: Option<string>)

  type CreateClient = CreateOrderRequest -> Outcome<CreateOrderResponse>

  /**
   * The createFulfillmentOrder request for an order. The destination is the
   * order's shipping address as converted (the region lookup is not
   * modelled) and `timestamp` is the caller's clock.
   */
  function CreateFulfillmentOrderRequest(c: ScopeConfig, order: Order, timestamp: string): (r: CreateOrderRequest)
    reads order`lines
    ensures r.fulfillmentPolicy == "FillOrKill"
    ensures r.sellerFulfillmentOrderId == order.incrementId && r.displayableOrderId == order.incrementId
    ensures r.sellerId == SellerId(c, 0) && r.displayableOrderComment == PackingSlipComment(c, 0)
    ensures r.shippingSpeedCategory == ShippingSpeed(order.shippingMethod)
    ensures r.items == WrapItems(EligibleItems(order.lines))
    ensures r.notificationEmailList.Some? <==> SendAmazonShipConfirmation(c, order.storeId)
    ensures r.notificationEmailList.Some? ==> r.notificationEmailList.value == [order.customerEmail]
  {
    CreateOrderRequest(
      SellerId(c, 0), "FillOrKill", order.shippingAddress, order.incrementId, order.incrementId,
      timestamp, PackingSlipComment(c, 0), ShippingSpeed(order.shippingMethod),
      WrapItems(EligibleItems(order.lines)),
      if SendAmazonShipConfirmation(c, order.storeId) then Some([order.customerEmail]) else None)
  }

  /** createFulfillmentOrder: a thrown exception becomes None. */
  function CreateFulfillmentOrder(c: ScopeConfig, order: Order, timestamp: string, client: CreateClient): (r: Option<CreateOrderResponse>)
    reads order`lines
    ensures r.None? <==> client(CreateFulfillmentOrderRequest(c, order, timestamp)).Threw?
    ensures r.Some? ==> r.value == client(CreateFulfillmentOrderRequest(c, order, timestamp)).response
  {
    Catch(client(CreateFulfillmentOrderRequest(c, order, timestamp)))
  }

  /** An item Amazon shipped: its SKU, quantity and package number. */
  datatype ShipmentItemRecord = ShipmentItemRecord(sellerSku: string, quantity: int, packageNumber: int)

  datatype ShipmentPackage = ShipmentPackage(packageNumber: int, carrierCode: string)

  datatype FulfillmentShipment = FulfillmentShipment(items: seq<ShipmentItemRecord>, packages: seq<ShipmentPackage>)

  /** GetFulfillmentOrderResult: status, echoed order id, the ordered SKUs and the shipments. */
  datatype FulfillmentOrderResult = FulfillmentOrderResult(
    status: string, displayableOrderId: string, itemSkus: seq<string>, shipments: seq<FulfillmentShipment>)

  type OrderLookupClient = map<string, string> -> Outcome<FulfillmentOrderResult>

  /** The getFulfillmentOrder request: the order id, with the seller id of the order's store. */
  function GetFulfillmentOrderRequest(c: ScopeConfig, incrementId: string, storeId: nat): (r: map<string, string>)
    ensures r.Keys == {"SellerId", "SellerFulfillmentOrderId"}
    ensures r["SellerFulfillmentOrderId"] == incrementId && r["SellerId"] == SellerId(c, storeId)
  {
    GetRequest(c, map["SellerFulfillmentOrderId" := incrementId], storeId)
  }

  function GetFulfillmentOrder(c: ScopeConfig, incrementId: string, storeId: nat, client: OrderLookupClient): (r: Option<FulfillmentOrderResult>)
    ensures r.None? <==> client(GetFulfillmentOrderRequest(c, incrementId, storeId)).Threw?
    ensures r.Some? ==> r.value == client(GetFulfillmentOrderRequest(c, incrementId, storeId)).response
  {
    Catch(client(GetFulfillmentOrderRequest(c, incrementId, storeId)))
  }

  datatype CancelResponse = CancelResponse(responseMetadata: Option<string>)

  type CancelClient = map<string, string> -> Outcome<CancelResponse>

  /** Whether the cancel call was issued, and its response (None when not issued or when it threw). */
  datatype CancelAttempt = CancelAttempt(cancelIssued: bool, response: Option<CancelResponse>)

  /** The request of both steps of cancelFulfillmentOrder (default-scope seller id). */
  function CancelRequest(c: ScopeConfig, incrementId: string): (r: map<string, string>)
    ensures r.Keys == {"SellerId", "SellerFulfillmentOrderId"}
    ensures r["SellerFulfillmentOrderId"] == incrementId && r["SellerId"] == SellerId(c, 0)
  {
    map["SellerId" := SellerId(c, 0), "SellerFulfillmentOrderId" := incrementId]
  }

  /** cancelFulfillmentOrder: look the order up first, and cancel only if the lookup returned. */
  function CancelFulfillmentOrder(c: ScopeConfig, incrementId: string, lookup: OrderLookupClient, cancel: CancelClient): (r: CancelAttempt)
    ensures r.cancelIssued <==> lookup(CancelRequest(c, incrementId)).Returned?
    ensures r.response.Some? <==> r.cancelIssued && cancel(CancelRequest(c, incrementId)).Returned?
    ensures r.response.Some? ==> r.response.value == cancel(CancelRequest(c, incrementId)).response
  {
    var request := CancelRequest(c, incrementId);
    match lookup(request)
    case Threw(_) => CancelAttempt(false, None)
    case Returned(_) => CancelAttempt(true, Catch(cancel(request)))
  }
}
