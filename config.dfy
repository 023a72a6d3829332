/**
 * Configuration reads of the plugin's helper (Helper/Data.php).
 *
 * The scope configuration is modelled as a default scope plus per-store
 * overrides; a store-scoped read falls back to the default scope when the
 * store sets nothing (Magento's website scope, between the two, is not
 * modelled). An unset path reads as "" (PHP null). Every getter
 * that takes a store id uses the store scope only when the id is truthy,
 * so store id 0 stands for "no store given".
 */
module Config {
  import opened Php

  datatype ScopeConfig = ScopeConfig(defaults: map<string, string>, stores: map<nat, map<string, string>>)

  const PathEnabled := "amazon_fba_connect/amazon_fba_credentials/amazon_fba_enable"
  const PathDebug := "amazon_fba_connect/amazon_fba_dev_settings/amazon_fba_debug"
  const PathEndpoint := "amazon_fba_connect/amazon_fba_credentials/amazon_fba_marketplace_endpoint"
  const PathCustomEndpoint := "amazon_fba_connect/amazon_fba_credentials/amazon_fba_custom_endpoint"
  const PathSellerId := "amazon_fba_connect/amazon_fba_credentials/amazon_fba_seller_id"
  const PathAccessKeyId := "amazon_fba_connect/amazon_fba_credentials/amazon_fba_access_key_id"
  const PathSecretAccessKey := "amazon_fba_connect/amazon_fba_credentials/amazon_fba_secret_access_key"
  const PathDisplayDeliveryBlock := "amazon_fba_connect/amazon_fba_delivery_estimates/amazon_fba_display_delivery_block"
  const PathSendShipConfirmation := "amazon_fba_connect/amazon_fba_delivery_options/amazon_fba_ship_confirmation"
  const PathDisplayEstimatedArrival := "amazon_fba_connect/amazon_fba_delivery_estimates/amazon_fba_display_estimated_arrival"
  const PathDisplayShippingCost := "amazon_fba_connect/amazon_fba_delivery_estimates/amazon_fba_display_shipping_cost"
  const PathPackingSlipComment := "amazon_fba_connect/amazon_fba_delivery_options/amazon_fba_packing_slip_comment"
  const PathDefaultStandardCost := "amazon_fba_connect/amazon_fba_delivery_estimates/amazon_fba_default_standard_cost"
  const PathDefaultExpeditedCost := "amazon_fba_connect/amazon_fba_delivery_estimates/amazon_fba_default_expedited_cost"
  const PathDefaultPriorityCost := "amazon_fba_connect/amazon_fba_delivery_estimates/amazon_fba_default_priority_cost"
  const PathCarrierEnabled := "carriers/amazonfulfillment/active"
  const PathStoreCountry := "general/store_information/country_id"
  const PathDefaultCountry := "general/country/default"

  /** The fixed page size of the full inventory sync. */
  const InventoryRowCount: nat := 45

  const DefaultPackingSlipMessage := "Thank you for your order!"

  /** The values of an order's `amazon_order_status`. */
  const StatusNew := "new"
  const StatusAttempted := "attempted"
  const StatusFail := "fail"
  const StatusReceived := "received"
  const StatusPlanning := "planning"
  const StatusProcessing := "processing"
  const StatusCancelled := "cancelled"

  function DefaultValue(c: ScopeConfig, path: string): (v: string)
    ensures path !in c.defaults ==> v == ""
  {
    if path in c.defaults then c.defaults[path] else ""
  }

  /** A store-scoped read: the store's own value, else the default scope's. */
  function StoreValue(c: ScopeConfig, path: string, storeId: nat): (v: string)
    ensures storeId !in c.stores || path !in c.stores[storeId] ==> v == DefaultValue(c, path)
  {
    if storeId in c.stores && path in c.stores[storeId] then c.stores[storeId][path] else DefaultValue(c, path)
  }

  /** `if ($storeId) getValue(path, store, id) else getValue(path)`. */
  function ScopedValue(c: ScopeConfig, path: string, storeId: nat): (v: string)
    ensures storeId == 0 ==> v == DefaultValue(c, path)
  {
    if storeId != 0 then StoreValue(c, path, storeId) else DefaultValue(c, path)
  }

  /** The endpoint, with the custom endpoint substituted when "custom" is selected and one is configured. */
  function ResolveEndpoint(endpoint: string, custom: string): (r: string)
    ensures endpoint != "custom" ==> r == endpoint
    ensures endpoint == "custom" && !Truthy(custom) ==> r == "custom"
    ensures endpoint == "custom" && Truthy(custom) ==> r == custom
  {
    if endpoint == "custom" && Truthy(custom) then custom else endpoint
  }

  /** getEndpoint as written: its store-scoped branch reads the packing-slip comment path. */
  function GetEndpointAsWritten(c: ScopeConfig, storeId: nat): (r: string)
    ensures storeId != 0 && StoreValue(c, PathPackingSlipComment, storeId) != "custom" ==>
      r == StoreValue(c, PathPackingSlipComment, storeId)
  {
    if storeId != 0 then
      ResolveEndpoint(StoreValue(c, PathPackingSlipComment, storeId), StoreValue(c, PathCustomEndpoint, storeId))
    else
      ResolveEndpoint(DefaultValue(c, PathEndpoint), DefaultValue(c, PathCustomEndpoint))
  }

  /** getEndpoint as evidently intended: both branches read the marketplace endpoint path. */
  function GetEndpoint(c: ScopeConfig, storeId: nat): (r: string)
    ensures ScopedValue(c, PathEndpoint, storeId) != "custom" ==> r == ScopedValue(c, PathEndpoint, storeId)
    ensures r != ScopedValue(c, PathEndpoint, storeId) ==>
      ScopedValue(c, PathEndpoint, storeId) == "custom" && r == ScopedValue(c, PathCustomEndpoint, storeId) && Truthy(r)
  {
    ResolveEndpoint(ScopedValue(c, PathEndpoint, storeId), ScopedValue(c, PathCustomEndpoint, storeId))
  }

  /** Every caller in the plugin asks for the endpoint without a store, where the two agree. */
  lemma EndpointAgreesWithoutStore(c: ScopeConfig)
    ensures GetEndpointAsWritten(c, 0) == GetEndpoint(c, 0)
  {
  }

  /** A store that sets a packing-slip comment and no endpoint override gets the comment back as its endpoint. */
  lemma EndpointStoreBranchReadsPackingSlip()
    ensures
      var c := ScopeConfig(
        map[PathEndpoint := "https://mws.amazonservices.com"],
        map[1 := map[PathPackingSlipComment := "Thanks!"]]);
      GetEndpointAsWritten(c, 1) == "Thanks!" && GetEndpoint(c, 1) == "https://mws.amazonservices.com"
  {
    var c := ScopeConfig(
      map[PathEndpoint := "https://mws.amazonservices.com"],
      map[1 := map[PathPackingSlipComment := "Thanks!"]]);
    assert StoreValue(c, PathPackingSlipComment, 1) == "Thanks!";
    assert StoreValue(c, PathEndpoint, 1) == "https://mws.amazonservices.com";
  }

  function SellerId(c: ScopeConfig, storeId: nat): string
  {
    ScopedValue(c, PathSellerId, storeId)
  }

  /** The access key as stored; the encryptor's decryption is not modelled, so stored values are plaintext. */
  function AccessKeyId(c: ScopeConfig, storeId: nat): string
  {
    ScopedValue(c, PathAccessKeyId, storeId)
  }

  function SecretAccessKey(c: ScopeConfig, storeId: nat): string
  {
    ScopedValue(c, PathSecretAccessKey, storeId)
  }

  /** The credentials are usable when endpoint, both keys and the seller id (all default scope) are non-empty. */
  predicate VerifyConfig(c: ScopeConfig)
  {
    Truthy(GetEndpoint(c, 0)) && Truthy(AccessKeyId(c, 0)) && Truthy(SecretAccessKey(c, 0)) && Truthy(SellerId(c, 0))
  }

  function IsEnabled(c: ScopeConfig, storeId: nat): (r: bool)
    ensures r ==> VerifyConfig(c)
    ensures VerifyConfig(c) ==> (r <==> Truthy(ScopedValue(c, PathEnabled, storeId)))
  {
    VerifyConfig(c) && Truthy(ScopedValue(c, PathEnabled, storeId))
  }

  function AmazonCarrierEnabled(c: ScopeConfig, storeId: nat): (r: bool)
    ensures r <==> Truthy(ScopedValue(c, PathCarrierEnabled, storeId))
  {
    Truthy(ScopedValue(c, PathCarrierEnabled, storeId))
  }

  function SendAmazonShipConfirmation(c: ScopeConfig, storeId: nat): (r: bool)
    ensures r <==> Truthy(ScopedValue(c, PathSendShipConfirmation, storeId))
  {
    Truthy(ScopedValue(c, PathSendShipConfirmation, storeId))
  }

  function DisplayShippingCosts(c: ScopeConfig, storeId: nat): (r: bool)
    ensures r <==> Truthy(ScopedValue(c, PathDisplayShippingCost, storeId))
  {
    Truthy(ScopedValue(c, PathDisplayShippingCost, storeId))
  }

  function DisplayDeliveryBlock(c: ScopeConfig, storeId: nat): (r: bool)
    ensures r ==> VerifyConfig(c) && AmazonCarrierEnabled(c, storeId)
    ensures VerifyConfig(c) && AmazonCarrierEnabled(c, storeId) ==>
      (r <==> Truthy(ScopedValue(c, PathDisplayDeliveryBlock, storeId)))
  {
    VerifyConfig(c) && AmazonCarrierEnabled(c, storeId) && Truthy(ScopedValue(c, PathDisplayDeliveryBlock, storeId))
  }

  function DisplayEstimatedArrival(c: ScopeConfig, storeId: nat): (r: bool)
    ensures r ==> VerifyConfig(c)
    ensures VerifyConfig(c) ==> (r <==> Truthy(ScopedValue(c, PathDisplayEstimatedArrival, storeId)))
  {
    VerifyConfig(c) && Truthy(ScopedValue(c, PathDisplayEstimatedArrival, storeId))
  }

  /**
   * The packing-slip comment. As written, the store-scoped read is always
   * overwritten by the default-scope read, so the store id has no effect.
   */
  function PackingSlipComment(c: ScopeConfig, storeId: nat): (r: string)
    ensures !VerifyConfig(c) ==> r == DefaultPackingSlipMessage
    ensures VerifyConfig(c) && Truthy(DefaultValue(c, PathPackingSlipComment)) ==> r == DefaultValue(c, PathPackingSlipComment)
    ensures VerifyConfig(c) && !Truthy(DefaultValue(c, PathPackingSlipComment)) ==> r == DefaultPackingSlipMessage
  {
    var value := if VerifyConfig(c) then DefaultValue(c, PathPackingSlipComment) else "";
    if Truthy(value) then value else DefaultPackingSlipMessage
  }

  lemma PackingSlipIgnoresStore(c: ScopeConfig, storeId: nat)
    ensures PackingSlipComment(c, storeId) == PackingSlipComment(c, 0)
    ensures Truthy(PackingSlipComment(c, storeId))
  {
  }

  /**
   * getStoreCountry: a store's configured country, else the default
   * country (always the default country when no store is given). The
   * country-information lookup is taken to return the two-letter id it
   * is given.
   */
  function StoreCountry(c: ScopeConfig, storeId: nat): (r: string)
    ensures storeId == 0 ==> r == DefaultValue(c, PathDefaultCountry)
    ensures storeId != 0 && Truthy(StoreValue(c, PathStoreCountry, storeId)) ==> r == StoreValue(c, PathStoreCountry, storeId)
    ensures storeId != 0 && !Truthy(StoreValue(c, PathStoreCountry, storeId)) ==> r == DefaultValue(c, PathDefaultCountry)
  {
    if storeId == 0 then DefaultValue(c, PathDefaultCountry)
    else
      var countryId := StoreValue(c, PathStoreCountry, storeId);
      if Truthy(countryId) then countryId else DefaultValue(c, PathDefaultCountry)
  }

  /** A default shipping cost: the configured value when the credentials verify, else "". */
  function DefaultShippingCost(c: ScopeConfig, path: string, storeId: nat): (r: string)
    ensures !VerifyConfig(c) ==> r == ""
    ensures VerifyConfig(c) ==> r == ScopedValue(c, path, storeId)
  {
    if VerifyConfig(c) then ScopedValue(c, path, storeId) else ""
  }

  function DefaultStandardShippingCost(c: ScopeConfig, storeId: nat): string
  {
    DefaultShippingCost(c, PathDefaultStandardCost, storeId)
  }

  function DefaultExpeditedShippingCost(c: ScopeConfig, storeId: nat): string
  {
    DefaultShippingCost(c, PathDefaultExpeditedCost, storeId)
  }

  function DefaultPriorityShippingCost(c: ScopeConfig, storeId: nat): string
  {
    DefaultShippingCost(c, PathDefaultPriorityCost, storeId)
  }

  predicate IsDebug(c: ScopeConfig)
  {
    Truthy(DefaultValue(c, PathDebug))
  }

  /** Without usable credentials nothing in the plugin is switched on and no default cost is offered. */
  lemma UnverifiedDisablesEverything(c: ScopeConfig, storeId: nat)
    requires !VerifyConfig(c)
    ensures !IsEnabled(c, storeId) && !DisplayDeliveryBlock(c, storeId) && !DisplayEstimatedArrival(c, storeId)
    ensures DefaultStandardShippingCost(c, storeId) == "" && DefaultExpeditedShippingCost(c, storeId) == ""
    ensures DefaultPriorityShippingCost(c, storeId) == ""
  {
  }

  /** Any missing credential fails the check (both directions of the "all four non-empty" rule). */
  lemma VerifyConfigNeedsAllFour(c: ScopeConfig)
    ensures VerifyConfig(c) <==>
      Truthy(ResolveEndpoint(DefaultValue(c, PathEndpoint), DefaultValue(c, PathCustomEndpoint))) &&
      Truthy(DefaultValue(c, PathAccessKeyId)) && Truthy(DefaultValue(c, PathSecretAccessKey)) &&
      Truthy(DefaultValue(c, PathSellerId))
  {
  }
}
