/**
 * The FBA inventory service (Model/Service/Inventory.php): supply lists by
 * SKU or by start time, the follow-up call by next token, and the
 * credential check used when the settings are saved.
 */
module InventoryService {
  import opened Wrappers
  import opened Php
  import opened Config

  const ServiceName := "/FulfillmentInventory/"
  const ServiceClassName := "FBAInventoryServiceMWS"

  /** `ListInventorySupply`: `sellerSkus` None when the request has no SellerSkus entry. */
  datatype SupplyRequest = SupplyRequest(sellerId: string, sellerSkus: Option<seq<string>>, queryStartDateTime: Option<string>)

  datatype TokenRequest = TokenRequest(sellerId: string, nextToken: string)

  /** One InventorySupply member; `earliestAvailability` is the timepoint type, None when absent. */
  datatype SupplyRecord = SupplyRecord(sellerSku: string, asin: string, earliestAvailability: Option<string>, inStock: int)

  /** The result of either list call: the supply members and the next token ("" when none). */
  datatype SupplyResponse = SupplyResponse(members: seq<SupplyRecord>, nextToken: string)

  type SupplyClient = SupplyRequest -> Outcome<SupplyResponse>
  type TokenClient = TokenRequest -> Outcome<SupplyResponse>

  /** The request of getFulfillmentInventoryList; the start time is only sent for an unfiltered listing. */
  function ListRequest(c: ScopeConfig, skus: seq<string>, startTime: string): (r: SupplyRequest)
    ensures r.sellerId == SellerId(c, 0) && r.sellerSkus == Some(skus)
    ensures r.queryStartDateTime.Some? <==> Truthy(startTime) && skus == []
    ensures r.queryStartDateTime.Some? ==> r.queryStartDateTime.value == startTime
  {
    SupplyRequest(SellerId(c, 0), Some(skus), if Truthy(startTime) && skus == [] then Some(startTime) else None)
  }

  function GetFulfillmentInventoryList(c: ScopeConfig, skus: seq<string>, startTime: string, client: SupplyClient): (r: Option<SupplyResponse>)
    ensures r.None? <==> client(ListRequest(c, skus, startTime)).Threw?
    ensures r.Some? ==> r.value == client(ListRequest(c, skus, startTime)).response
  {
    Catch(client(ListRequest(c, skus, startTime)))
  }

  function NextTokenRequest(c: ScopeConfig, token: string): (r: TokenRequest)
    ensures r.sellerId == SellerId(c, 0) && r.nextToken == token
  {
    TokenRequest(SellerId(c, 0), token)
  }

  function GetListInventorySupplyByNextToken(c: ScopeConfig, token: string, client: TokenClient): (r: Option<SupplyResponse>)
    ensures r.None? <==> client(NextTokenRequest(c, token)).Threw?
    ensures r.Some? ==> r.value == client(NextTokenRequest(c, token)).response
  {
    Catch(client(NextTokenRequest(c, token)))
  }

  const CredentialsValidMessage := "Your keys are correct, and able to connect to Fulfillment by Amazon."
  const CredentialsInvalidMessage :=
    "Your Amazon MWS API developer credentials are not valid. Please verify keys were entered correctly, \n"
    + "                and check user guide for more details on obtaining keys."

  datatype CredentialCheck = CredentialCheck(result: string, message: string)

  /** The request of checkCredentials: the seller id and a start time (the caller's clock minus one day). */
  function CredentialsRequest(c: ScopeConfig, startTime: string): (r: SupplyRequest)
    ensures r.sellerId == SellerId(c, 0) && r.sellerSkus.None? && r.queryStartDateTime == Some(startTime)
  {
    SupplyRequest(SellerId(c, 0), None, Some(startTime))
  }

  /** "success" with the valid-keys message unless the call throws, then "fail" with the invalid-keys message. */
  function CheckCredentials(c: ScopeConfig, startTime: string, client: SupplyClient): (r: CredentialCheck)
    ensures r.result == "success" <==> client(CredentialsRequest(c, startTime)).Returned?
    ensures r.result == "success" || r.result == "fail"
    ensures r.message == (if r.result == "success" then CredentialsValidMessage else CredentialsInvalidMessage)
  {
    match client(CredentialsRequest(c, startTime))
    case Returned(_) => CredentialCheck("success", CredentialsValidMessage)
    case Threw(_) => CredentialCheck("fail", CredentialsInvalidMessage)
  }
}
