/**
 * The "Fulfillment By Amazon" shipping carrier
 * (Model/Carrier/AmazonFulfillment.php): it keeps the rate request and
 * the destination address built from it, asks Amazon for a fulfilment
 * preview and turns the previews, or the configured default costs, into
 * checkout rates.
 */
module Carrier {
  import opened Wrappers
  import opened Php
  import opened OrderedMaps
  import opened Config
  import opened Magento
  import opened Conversion
  import opened OutboundService

  const Code := "amazonfulfillment"
  const Title := "Fulfillment By Amazon"
  const PerUnitFeeName := "FBAPerUnitFulfillmentFee"

  const PlaceholderName := "john doe"
  const PlaceholderStreet := "100 Placeholder St"
  const PlaceholderCity := "Placeholderville"
  const PlaceholderState := "WA"

  /** A checkout rate request: the destination as entered, the store and the cart lines. */
  datatype RateRequest = RateRequest(
    destCountryId: string,
    destPostcode: string,
    destRegionCode: string,
    destCity: string,
    destStreet: string,
    storeId: nat,
    items: seq<LineItem>)

  // ---------------------------------------------------------------- the destination address

  /** The address fields copied from the request; the country falls back to the store's. */
  function RequestAddress(c: ScopeConfig, req: RateRequest): map<string, string>
  {
    var r0: map<string, string> := if Truthy(req.destCountryId) then map["CountryCode" := req.destCountryId] else map[];
    var country := StoreCountry(c, req.storeId);
    var r1 := if "CountryCode" !in r0 && Truthy(country) then r0["CountryCode" := country] else r0;
    var r2 := if Truthy(req.destPostcode) then r1["PostalCode" := req.destPostcode] else r1;
    var r3 := if Truthy(req.destRegionCode) then r2["StateOrProvinceCode" := req.destRegionCode] else r2;
    var r4 := if Truthy(req.destCity) && req.destCountryId != "JP" then r3["City" := req.destCity] else r3;
    if Truthy(req.destStreet) then r4["Line1" := req.destStreet] else r4
  }

  function WithDefault(r: map<string, string>, key: string, value: string): (r': map<string, string>)
    ensures key in r ==> r' == r
    ensures key !in r ==> r' == r[key := value]
  {
    if key in r then r else r[key := value]
  }

  /** Copied fields completed with placeholders, or nothing when the destination is too vague. */
  function Completed(r: map<string, string>): map<string, string>
  {
    if "CountryCode" in r && ("PostalCode" in r || "StateOrProvinceCode" in r) then
      WithDefault(WithDefault(WithDefault(WithDefault(r, "Name", PlaceholderName), "Line1", PlaceholderStreet),
                              "City", PlaceholderCity), "StateOrProvinceCode", PlaceholderState)
    else map[]
  }

  /** The preview address: complete fields with placeholders, or empty when the destination is too vague. */
  function ShippingAddress(c: ScopeConfig, req: RateRequest): map<string, string>
  {
    Completed(RequestAddress(c, req))
  }

  /** The country the address uses, if any: the destination's, else the store's. */
  function AddressCountry(c: ScopeConfig, req: RateRequest): Option<string>
  {
    if Truthy(req.destCountryId) then Some(req.destCountryId)
    else if Truthy(StoreCountry(c, req.storeId)) then Some(StoreCountry(c, req.storeId))
    else None
  }

  /** The copied fields: each is the entered value when set, the country falling back to the store's. */
  lemma RequestAddressFields(c: ScopeConfig, req: RateRequest)
    ensures
      var r := RequestAddress(c, req);
      r.Keys <= {"CountryCode", "PostalCode", "StateOrProvinceCode", "City", "Line1"}
      && ("CountryCode" in r <==> AddressCountry(c, req).Some?)
      && ("CountryCode" in r ==> r["CountryCode"] == AddressCountry(c, req).value)
      && ("PostalCode" in r <==> Truthy(req.destPostcode))
      && ("PostalCode" in r ==> r["PostalCode"] == req.destPostcode)
      && ("StateOrProvinceCode" in r <==> Truthy(req.destRegionCode))
      && ("StateOrProvinceCode" in r ==> r["StateOrProvinceCode"] == req.destRegionCode)
      && ("City" in r <==> Truthy(req.destCity) && req.destCountryId != "JP")
      && ("City" in r ==> r["City"] == req.destCity)
      && ("Line1" in r <==> Truthy(req.destStreet))
      && ("Line1" in r ==> r["Line1"] == req.destStreet)
  {
    var r0: map<string, string> := if Truthy(req.destCountryId) then map["CountryCode" := req.destCountryId] else map[];
    var country := StoreCountry(c, req.storeId);
    var r1 := if "CountryCode" !in r0 && Truthy(country) then r0["CountryCode" := country] else r0;
    assert r1.Keys <= {"CountryCode"};
    assert "CountryCode" in r1 <==> AddressCountry(c, req).Some?;
    assert "CountryCode" in r1 ==> r1["CountryCode"] == AddressCountry(c, req).value;
    var r2 := if Truthy(req.destPostcode) then r1["PostalCode" := req.destPostcode] else r1;
    var r3 := if Truthy(req.destRegionCode) then r2["StateOrProvinceCode" := req.destRegionCode] else r2;
    var r4 := if Truthy(req.destCity) && req.destCountryId != "JP" then r3["City" := req.destCity] else r3;
    assert RequestAddress(c, req) == if Truthy(req.destStreet) then r4["Line1" := req.destStreet] else r4;
  }

  /** The address is non-empty exactly when a country is known and a postal code or a region was entered. */
  lemma AddressNonEmptyIff(c: ScopeConfig, req: RateRequest)
    ensures ShippingAddress(c, req) != map[] <==>
      AddressCountry(c, req).Some? && (Truthy(req.destPostcode) || Truthy(req.destRegionCode))
  {
    RequestAddressFields(c, req);
    var r := RequestAddress(c, req);
    if "CountryCode" in r && ("PostalCode" in r || "StateOrProvinceCode" in r) {
      assert "CountryCode" in ShippingAddress(c, req);
    }
  }

  /**
   * A non-empty address has every field: the entered value where there
   * is one and the placeholder only where there is none.
   */
  lemma AddressFields(c: ScopeConfig, req: RateRequest)
    requires ShippingAddress(c, req) != map[]
    ensures
      var a := ShippingAddress(c, req);
      a.Keys <= {"CountryCode", "PostalCode", "StateOrProvinceCode", "City", "Line1", "Name"}
      && "CountryCode" in a && a["CountryCode"] == AddressCountry(c, req).value
      && ("PostalCode" in a <==> Truthy(req.destPostcode))
      && ("PostalCode" in a ==> a["PostalCode"] == req.destPostcode)
      && "StateOrProvinceCode" in a
      && a["StateOrProvinceCode"] == (if Truthy(req.destRegionCode) then req.destRegionCode else PlaceholderState)
      && "City" in a
      && a["City"] == (if Truthy(req.destCity) && req.destCountryId != "JP" then req.destCity else PlaceholderCity)
      && "Line1" in a && a["Line1"] == (if Truthy(req.destStreet) then req.destStreet else PlaceholderStreet)
      && "Name" in a && a["Name"] == PlaceholderName
  {
    RequestAddressFields(c, req);
  }

  /** A Japanese destination never passes its own city: the address carries the placeholder city. */
  lemma JapanCityIsPlaceholder(c: ScopeConfig, req: RateRequest)
    requires req.destCountryId == "JP"
    ensures ShippingAddress(c, req) != map[] ==> ShippingAddress(c, req)["City"] == PlaceholderCity
  {
    if ShippingAddress(c, req) != map[] {
      AddressFields(c, req);
    }
  }

  // ---------------------------------------------------------------- rates from a preview

  /** A rate price: the summed per-unit fee, a configured default cost, or nothing for a speed without a default. */
  datatype Price = FeeTotal(amount: int) | DefaultCost(value: string) | NoDefault

  /** The rate's `date` key: absent, or the last latest-arrival date (PHP 0 when no shipment has one). */
  datatype RateDate = NoDateKey | ShipDate(arrival: Option<ArrivalDate>)

  datatype RateValue = RateValue(price: Price, date: RateDate)

  /** Rates keyed by speed title, in insertion order. */
  type Rates = OrderedMap<string, RateValue>

  /** calculateShippingFee: the sum of the per-unit fulfilment fees, other fees ignored. */
  function ShippingFee(fees: seq<Fee>): int
  {
    if fees == [] then 0
    else
      var f := fees[|fees| - 1];
      ShippingFee(fees[..|fees| - 1]) + (if f.name == PerUnitFeeName then f.amount else 0)
  }

  lemma {:induction false} ShippingFeeAppend(a: seq<Fee>, b: seq<Fee>)
    ensures ShippingFee(a + b) == ShippingFee(a) + ShippingFee(b)
    decreases |b|
  {
    if b == [] {
      assert a + b == a;
    } else {
      var b' := b[..|b| - 1];
      assert (a + b)[..|a + b| - 1] == a + b';
      ShippingFeeAppend(a, b');
    }
  }

  /** Fees of any other name add nothing. */
  lemma {:induction false} ShippingFeeOtherFees(fees: seq<Fee>)
    requires forall i :: 0 <= i < |fees| ==> fees[i].name != PerUnitFeeName
    ensures ShippingFee(fees) == 0
  {
    if fees != [] {
      ShippingFeeOtherFees(fees[..|fees| - 1]);
    }
  }

  method CalculateShippingFee(fees: seq<Fee>) returns (feeAmount: int)
    ensures feeAmount == ShippingFee(fees)
  {
    feeAmount := 0;
    var i := 0;
    while i < |fees|
      invariant 0 <= i <= |fees|
      invariant feeAmount == ShippingFee(fees[..i])
    {
      assert fees[..i + 1][..i] == fees[..i];
      if fees[i].name == PerUnitFeeName {
        feeAmount := feeAmount + fees[i].amount;
      }
      i := i + 1;
    }
    assert fees[..i] == fees;
  }

  /** The last shipment's latest-arrival date that is set. */
  function LastLatest(ships: seq<PreviewShipment>): Option<ArrivalDate>
  {
    if ships == [] then None
    else if ships[|ships| - 1].latest.Some? then ships[|ships| - 1].latest
    else LastLatest(ships[..|ships| - 1])
  }

  lemma {:induction false} LastLatestIsLast(ships: seq<PreviewShipment>)
    ensures LastLatest(ships).None? <==> forall i :: 0 <= i < |ships| ==> ships[i].latest.None?
    ensures LastLatest(ships).Some? ==>
      exists i :: 0 <= i < |ships| && ships[i].latest == LastLatest(ships) && forall j :: i < j < |ships| ==> ships[j].latest.None?
  {
    if ships != [] {
      var init := ships[..|ships| - 1];
      LastLatestIsLast(init);
      if ships[|ships| - 1].latest.None? {
        forall i | 0 <= i < |init| ensures init[i] == ships[i] { }
        if LastLatest(ships).Some? {
          var i :| 0 <= i < |init| && init[i].latest == LastLatest(init) && forall j :: i < j < |init| ==> init[j].latest.None?;
          assert ships[i].latest == LastLatest(ships);
          assert forall j :: i < j < |ships| ==> ships[j].latest.None? by {
            forall j | i < j < |ships| ensures ships[j].latest.None? {
              if j < |init| { assert init[j] == ships[j]; }
            }
          }
        }
      }
    }
  }

  method LatestArrival(ships: seq<PreviewShipment>) returns (shipDate: Option<ArrivalDate>)
    ensures shipDate == LastLatest(ships)
  {
    shipDate := None;
    var i := 0;
    while i < |ships|
      invariant 0 <= i <= |ships|
      invariant shipDate == LastLatest(ships[..i])
    {
      assert ships[..i + 1][..i] == ships[..i];
      if ships[i].latest.Some? {
        shipDate := ships[i].latest;
      }
      i := i + 1;
    }
    assert ships[..i] == ships;
  }

  /** The rate a fulfillable preview contributes. */
  function PreviewRate(p: FulfillmentPreview): RateValue
  {
    RateValue(FeeTotal(ShippingFee(p.fees)), ShipDate(LastLatest(p.shipments)))
  }

  /** getRatesFromFulfillmentPreview: one rate per speed of the fulfillable previews, a later preview replacing an earlier one. */
  function PreviewRates(previews: seq<FulfillmentPreview>): Rates
  {
    if previews == [] then []
    else
      var rates := PreviewRates(previews[..|previews| - 1]);
      var p := previews[|previews| - 1];
      if Fulfillable(p) then Put(rates, p.speed, PreviewRate(p)) else rates
  }

  /** Preview `i` is the last fulfillable preview with the given speed. */
  predicate LastWithSpeed(previews: seq<FulfillmentPreview>, speed: string, i: int)
  {
    0 <= i < |previews| && Fulfillable(previews[i]) && previews[i].speed == speed &&
    forall j :: i < j < |previews| ==> !(Fulfillable(previews[j]) && previews[j].speed == speed)
  }

  /**
   * A speed has a rate exactly when some fulfillable preview has that
   * speed, and the rate is that of the last such preview.
   */
  lemma {:induction false} PreviewRatesExact(previews: seq<FulfillmentPreview>, speed: string)
    ensures Get(PreviewRates(previews), speed).Some? <==>
      exists i :: 0 <= i < |previews| && Fulfillable(previews[i]) && previews[i].speed == speed
    ensures forall i :: LastWithSpeed(previews, speed, i) ==> Get(PreviewRates(previews), speed) == Some(PreviewRate(previews[i]))
  {
    if previews != [] {
      var init := previews[..|previews| - 1];
      var p := previews[|previews| - 1];
      PreviewRatesExact(init, speed);
      if Fulfillable(p) {
        GetPut(PreviewRates(init), p.speed, PreviewRate(p), speed);
      }
      forall i | 0 <= i < |init| ensures init[i] == previews[i] { }
      forall i | LastWithSpeed(previews, speed, i)
        ensures Get(PreviewRates(previews), speed) == Some(PreviewRate(previews[i]))
      {
        if i < |init| {
          assert !(Fulfillable(p) && p.speed == speed);
          assert LastWithSpeed(init, speed, i) by {
          assert forall j :: i < j < |init| ==> !(Fulfillable(init[j]) && init[j].speed == speed) by {
            forall j | i < j < |init| ensures !(Fulfillable(init[j]) && init[j].speed == speed) {
              assert init[j] == previews[j];
            }
          }
          }
        }
      }
    }
  }

  lemma {:induction false} PreviewRatesDistinct(previews: seq<FulfillmentPreview>)
    ensures DistinctKeys(PreviewRates(previews))
  {
    if previews != [] {
      var p := previews[|previews| - 1];
      PreviewRatesDistinct(previews[..|previews| - 1]);
      if Fulfillable(p) {
        PutDistinct(PreviewRates(previews[..|previews| - 1]), p.speed, PreviewRate(p));
      }
    }
  }

  method GetRatesFromFulfillmentPreview(previews: seq<FulfillmentPreview>) returns (rates: Rates)
    ensures rates == PreviewRates(previews)
  {
    rates := [];
    var i := 0;
    while i < |previews|
      invariant 0 <= i <= |previews|
      invariant rates == PreviewRates(previews[..i])
    {
      assert previews[..i + 1][..i] == previews[..i];
      var preview := previews[i];
      if preview.isFulfillable != "false" {
        var shippingFee := CalculateShippingFee(preview.fees);
        var shipDate := LatestArrival(preview.shipments);
        rates := Put(rates, preview.speed, RateValue(FeeTotal(shippingFee), ShipDate(shipDate)));
      }
      i := i + 1;
    }
    assert previews[..i] == previews;
  }

  // ---------------------------------------------------------------- shipping rates

  /** The configured default cost of a speed; speeds other than the three have none. */
  function DefaultPrice(c: ScopeConfig, storeId: nat, speed: string): Price
  {
    if speed == "Standard" then DefaultCost(DefaultStandardShippingCost(c, storeId))
    else if speed == "Expedited" then DefaultCost(DefaultExpeditedShippingCost(c, storeId))
    else if speed == "Priority" then DefaultCost(DefaultPriorityShippingCost(c, storeId))
    else NoDefault
  }

  /** The single default Standard rate. */
  function StandardDefault(c: ScopeConfig, storeId: nat): Rates
  {
    [("Standard", RateValue(DefaultPrice(c, storeId, "Standard"), NoDateKey))]
  }

  /** The returned speeds with their default prices: same keys, same dates. */
  function WithDefaultPrices(rates: Rates, c: ScopeConfig, storeId: nat): (r: Rates)
    ensures |r| == |rates|
  {
    seq(|rates|, i requires 0 <= i < |rates| => (rates[i].0, rates[i].1.(price := DefaultPrice(c, storeId, rates[i].0))))
  }

  /** The rates for a known address: the preview's, else the default Standard rate; hidden costs use the defaults. */
  function AddressRates(c: ScopeConfig, storeId: nat, address: map<string, string>, items: ItemsArray, client: PreviewClient): Rates
  {
    var preview := GetFulfillmentPreview(c, address, items, client);
    var rates := if preview.Some? then PreviewRates(preview.value.previews) else [];
    if rates == [] then StandardDefault(c, storeId)
    else if !DisplayShippingCosts(c, storeId) then WithDefaultPrices(rates, c, storeId)
    else rates
  }

  /** getShippingRates, given the address prepared for the request. */
  function ShippingRates(c: ScopeConfig, req: RateRequest, address: map<string, string>, client: PreviewClient): Rates
  {
    var items := WrapItems(EligibleItems(req.items));
    if items.NoItems? then []
    else
      var rates := if address != map[] then AddressRates(c, req.storeId, address, items, client) else [];
      if rates == [] && req.items != [] && HasFbaItem(req.items) then StandardDefault(c, req.storeId) else rates
  }

  /** There are rates exactly when the cart has an item Amazon can ship. */
  lemma ShippingRatesEmptyIff(c: ScopeConfig, req: RateRequest, address: map<string, string>, client: PreviewClient)
    ensures ShippingRates(c, req, address, client) == [] <==> EligibleItems(req.items) == []
  {
    EligibleItemsExact(req.items);
    if EligibleItems(req.items) != [] {
      var i :| 0 <= i < |req.items| && Eligible(req.items[i]);
      assert HasFbaItem(req.items);
    }
  }

  /** Without a usable address, a cart with a shippable item gets only the default Standard rate. */
  lemma NoAddressDefaultOnly(c: ScopeConfig, req: RateRequest, client: PreviewClient)
    requires EligibleItems(req.items) != []
    ensures ShippingRates(c, req, map[], client) == StandardDefault(c, req.storeId)
  {
    EligibleItemsExact(req.items);
    var i :| 0 <= i < |req.items| && Eligible(req.items[i]);
    assert HasFbaItem(req.items);
  }

  /** A failed preview, or one with no fulfillable speed, gives only the default Standard rate. */
  lemma EmptyPreviewDefaultOnly(c: ScopeConfig, req: RateRequest, address: map<string, string>, client: PreviewClient)
    requires EligibleItems(req.items) != [] && address != map[]
    requires
      var preview := GetFulfillmentPreview(c, address, WrapItems(EligibleItems(req.items)), client);
      preview.None? || PreviewRates(preview.value.previews) == []
    ensures ShippingRates(c, req, address, client) == StandardDefault(c, req.storeId)
  {
  }

  /** With costs hidden, the returned speeds are kept, in order, with their default prices, and none is added. */
  lemma HiddenCostsKeepSpeeds(c: ScopeConfig, req: RateRequest, address: map<string, string>, client: PreviewClient)
    requires EligibleItems(req.items) != [] && address != map[] && !DisplayShippingCosts(c, req.storeId)
    requires
      var preview := GetFulfillmentPreview(c, address, WrapItems(EligibleItems(req.items)), client);
      preview.Some? && PreviewRates(preview.value.previews) != []
    ensures
      var preview := GetFulfillmentPreview(c, address, WrapItems(EligibleItems(req.items)), client);
      var returned := PreviewRates(preview.value.previews);
      var rates := ShippingRates(c, req, address, client);
      Keys(rates) == Keys(returned) &&
      forall i :: 0 <= i < |rates| ==>
        rates[i].1 == RateValue(DefaultPrice(c, req.storeId, rates[i].0), returned[i].1.date)
  {
    var preview := GetFulfillmentPreview(c, address, WrapItems(EligibleItems(req.items)), client);
    var returned := PreviewRates(preview.value.previews);
    var rates := ShippingRates(c, req, address, client);
    assert rates == WithDefaultPrices(returned, c, req.storeId);
    assert Keys(rates) == Keys(returned);
  }

  // ---------------------------------------------------------------- rate methods

  /** A method title: the speed title, prefixed by the formatted arrival date when dates are shown. */
  datatype MethodTitle = TitleOnly(title: string) | ByDate(arrival: Option<ArrivalDate>, title: string)

  datatype RateMethod = RateMethod(
    carrier: string, carrierTitle: string, methodCode: string, methodTitle: MethodTitle, price: Price, cost: Price)

  function MethodFor(title: string, v: RateValue, showDates: bool): RateMethod
  {
    RateMethod(Code, Title, ToLower(title),
      if showDates && v.date.ShipDate? then ByDate(v.date.arrival, title) else TitleOnly(title),
      v.price, v.price)
  }

  /** One method per rate, in rate order: code the lowercased title, price and cost the rate's price. */
  function RateMethods(rates: Rates, showDates: bool): (r: seq<RateMethod>)
    ensures |r| == |rates|
    ensures forall i :: 0 <= i < |rates| ==>
      r[i].carrier == Code && r[i].methodCode == ToLower(rates[i].0) && r[i].price == rates[i].1.price && r[i].cost == rates[i].1.price
  {
    seq(|rates|, i requires 0 <= i < |rates| => MethodFor(rates[i].0, rates[i].1, showDates))
  }

  class AmazonFulfillment {
    var request: Option<RateRequest>
    var address: map<string, string>

    constructor ()
      ensures request == None && address == map[]
    {
      request := None;
      address := map[];
    }

    /** prepareShippingRequest: keep the request and build its address. */
    method PrepareShippingRequest(c: ScopeConfig, req: RateRequest)
      modifies this
      ensures request == Some(req) && address == ShippingAddress(c, req)
    {
      request := Some(req);
      var r := CopyRequestAddress(c, req);
      address := CompleteAddress(r);
    }

    /** getShippingRates for the prepared address. */
    method GetShippingRates(c: ScopeConfig, req: RateRequest, client: PreviewClient) returns (rates: Rates)
      ensures rates == ShippingRates(c, req, address, client)
    {
      rates := [];
      var items := GetAmazonItemsArrayFromRateRequest(req.items);
      if items.NoItems? {
        return;
      }
      if address != map[] {
        var fulfillmentPreview := GetFulfillmentPreview(c, address, items, client);
        if fulfillmentPreview.Some? {
          rates := GetRatesFromFulfillmentPreview(fulfillmentPreview.value.previews);
        }
        if rates == [] {
          rates := StandardDefault(c, req.storeId);
        } else if !DisplayShippingCosts(c, req.storeId) {
          rates := UseDefaultPrices(rates, c, req.storeId);
        }
      }
      if rates == [] {
        var isFba := false;
        if req.items != [] {
          isFba := AnyFbaItem(req.items);
          if isFba {
            rates := StandardDefault(c, req.storeId);
          }
        }
      }
    }

    /**
     * collectRates: nothing (false) when the carrier is inactive or the
     * extension is off; otherwise the request is prepared and every rate
     * becomes a method. `currentStoreId` is the store manager's store.
     */
    method CollectRates(c: ScopeConfig, req: RateRequest, currentStoreId: nat, client: PreviewClient)
      returns (result: Option<seq<RateMethod>>)
      modifies this
      ensures !(AmazonCarrierEnabled(c, req.storeId) && IsEnabled(c, 0)) ==>
        result == None && request == old(request) && address == old(address)
      ensures AmazonCarrierEnabled(c, req.storeId) && IsEnabled(c, 0) ==>
        request == Some(req) && address == ShippingAddress(c, req) &&
        result == Some(RateMethods(ShippingRates(c, req, ShippingAddress(c, req), client), DisplayEstimatedArrival(c, currentStoreId)))
    {
      if !AmazonCarrierEnabled(c, req.storeId) {
        return None;
      }
      if IsEnabled(c, 0) {
        PrepareShippingRequest(c, req);
        var rates := GetShippingRates(c, req, client);
        var showDates := DisplayEstimatedArrival(c, currentStoreId);
        var methods := BuildMethods(rates, showDates);
        result := Some(methods);
      } else {
        result := None;
      }
    }
  }

  /** The first half of prepareShippingRequest: copy the fields the request sets. */
  method CopyRequestAddress(c: ScopeConfig, req: RateRequest) returns (r: map<string, string>)
    ensures r == RequestAddress(c, req)
  {
    r := map[];
    if Truthy(req.destCountryId) {
      r := r["CountryCode" := req.destCountryId];
    }
    if "CountryCode" !in r {
      var country := StoreCountry(c, req.storeId);
      if Truthy(country) {
        r := r["CountryCode" := country];
      }
    }
    if Truthy(req.destPostcode) {
      r := r["PostalCode" := req.destPostcode];
    }
    if Truthy(req.destRegionCode) {
      r := r["StateOrProvinceCode" := req.destRegionCode];
    }
    if Truthy(req.destCity) && req.destCountryId != "JP" {
      r := r["City" := req.destCity];
    }
    if Truthy(req.destStreet) {
      r := r["Line1" := req.destStreet];
    }
  }

  /** The second half: a usable destination gets placeholders for its missing fields, any other none at all. */
  method CompleteAddress(r0: map<string, string>) returns (r: map<string, string>)
    ensures r == Completed(r0)
  {
    r := r0;
    if "CountryCode" in r && ("PostalCode" in r || "StateOrProvinceCode" in r) {
      if "Name" !in r {
        r := r["Name" := PlaceholderName];
      }
      if "Line1" !in r {
        r := r["Line1" := PlaceholderStreet];
      }
      if "City" !in r {
        r := r["City" := PlaceholderCity];
      }
      if "StateOrProvinceCode" !in r {
        r := r["StateOrProvinceCode" := PlaceholderState];
      }
    } else {
      r := map[];
    }
  }

  /** The loop of collectRates that turns each returned speed into a shipping method. */
  method BuildMethods(rates: Rates, showDates: bool) returns (methods: seq<RateMethod>)
    ensures methods == RateMethods(rates, showDates)
  {
    methods := [];
    var i := 0;
    while i < |rates|
      invariant 0 <= i <= |rates|
      invariant methods == RateMethods(rates[..i], showDates)
    {
      methods := methods + [MethodFor(rates[i].0, rates[i].1, showDates)];
      i := i + 1;
    }
    assert rates[..i] == rates;
  }

  /** The price loop for hidden costs: each returned speed's price becomes its default, in place. */
  method UseDefaultPrices(rates: Rates, c: ScopeConfig, storeId: nat) returns (r: Rates)
    ensures r == WithDefaultPrices(rates, c, storeId)
  {
    r := rates;
    var i := 0;
    while i < |r|
      invariant 0 <= i <= |r| == |rates|
      invariant forall k :: 0 <= k < i ==> r[k] == (rates[k].0, rates[k].1.(price := DefaultPrice(c, storeId, rates[k].0)))
      invariant forall k :: i <= k < |r| ==> r[k] == rates[k]
    {
      r := r[i := (r[i].0, r[i].1.(price := DefaultPrice(c, storeId, r[i].0)))];
      i := i + 1;
    }
  }

  /** The cart loop that stops at the first FBA-enabled product. */
  method AnyFbaItem(items: seq<LineItem>) returns (isFba: bool)
    ensures isFba == HasFbaItem(items)
  {
    isFba := false;
    var i := 0;
    while i < |items|
      invariant 0 <= i <= |items|
      invariant !isFba && forall k :: 0 <= k < i ==> !items[k].product.asinEnabled
    {
      isFba := items[i].product.asinEnabled;
      if isFba {
        break;
      }
      i := i + 1;
    }
  }
}
