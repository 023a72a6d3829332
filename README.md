# Amazon Multi-Channel Fulfillment for Magento 2 — a verified model

This project is a Dafny model of the logic core of the Magento 2 plugin that connects a store to Amazon.
The plugin sends orders to Amazon Multi-Channel Fulfillment (MCF) and keeps stock levels in step with Amazon's inventory. The model covers:

* **the two inventory reconcilers** (`Cron/GetInventoryStatus.php`):
  * an incremental sync driven by a stored next-token;
  * a full sync that walks the FBA-enabled catalog 45 rows at a time, using a stored row offset and a "done" flag.
* **the order reconciler and the resubmission engine** (`Cron/GetOrderStatus.php`). For pollable orders it fetches Amazon's status. Then it:
  * cancels the lines Amazon could not fulfil;
  * creates one shipment per Amazon package, with its tracking;
  * retries failed placements up to five times.
* **the two order observers**: one places an order with Amazon, the other cancels it.
* **the admin "synchronize" action**, which restarts the full sync.
* **the helpers:**
  * configuration and cursor store (`Helper/Data.php`);
  * conversion tables (`Helper/Conversion.php`).
* **the shipping carrier** (`Model/Carrier/AmazonFulfillment.php`), which turns a fulfilment preview into checkout rates.
* **the three MWS service wrappers** (`Model/Service/*.php`).
* **the product-save and config-save plugins**, and the product-page delivery-estimate endpoint (`Controller/Ajax/FBAData.php`).
* **the checkout address validator** (`view/frontend/web/js/model/shipping-rates-validator.js`).

## How the model is built

* **Remote calls.** Every remote MWS call is a function parameter returning `Outcome<T>` (`Returned(response)` or `Threw`). `Wrappers.Catch` turns a thrown MWS exception into `None`, as each service wrapper's `try/catch` does.
* **Configuration** is a value `ScopeConfig` with default-scope and store-scope maps. A store-scoped read of a missing value falls back to the default scope. Magento resolves a store-scoped read store, then website, then default; the model has no website scope (see "
* **PHP arrays** are insertion-ordered maps, `OrderedMaps.OrderedMap<K,V> = seq<(K,V)>`. Assigning a key that is already present overwrites its value in place; a new key is appended at the end.
* **Objects the plugin changes in place** are classes:
  * `Magento.Order` (status, submission count, lines, comments, shipments);
  * `Magento.StockRegistry` (stock per entity id);
  * `Magento.Notifier` (admin notices);
  * `Cursors.VariableStore` (Magento's custom variables, used as the plugin's cursors);
  * `Carrier.AmazonFulfillment` (the carrier's prepared request and address);
  * `RatesValidator.ShippingRatesValidator` (the accumulated error list).
* **Methods and their specifications.** Each method that loops or mutates is proved against a specification function. The lemmas beside that function state the properties the source promises.
* **Truthiness.** `Php.Truthy` is PHP truthiness on strings: neither `""` nor `"0"`.

## Model

| member | source | states |
|---|---|---|
| Wrappers.Catch | Amazon/MCF/Model/Service/Outbound.php:91-96 | a caught MWS exception becomes None; a returned response is passed through unchanged |
| OrderedMaps.Put | Amazon/MCF/Cron/GetInventoryStatus.php:179 | assigning a present key keeps the array's length; assigning a new key appends exactly that pair |
| OrderedMaps.GetPut | Amazon/MCF/Cron/GetInventoryStatus.php:186-205 | after `$a[$k] = $v`, reading `$k` yields `$v` and every other key reads as before |
| OrderedMaps.KeysPut | Amazon/MCF/Cron/GetInventoryStatus.php:274 | assignment keeps key order: an existing key stays in place, a new key goes last |
| OrderedMaps.PutDistinct | Amazon/MCF/Cron/GetInventoryStatus.php:274 | assignment never creates a duplicate key |
| Php.ToLower | Amazon/MCF/Helper/Conversion.php:204-211 | `strtolower` keeps the length and lowers each ASCII capital, leaving other characters alone |
| Php.ToLowerIdempotent | Amazon/MCF/Helper/Conversion.php:204-211 | lower-casing twice is the same as lower-casing once |
| Php.ReplaceChar | Amazon/MCF/Helper/Conversion.php:204-211 | `str_replace(' ', '_', …)` on single characters replaces exactly the matching positions |
| Php.DigitStringsAreNumeric | Amazon/MCF/Controller/Ajax/FBAData.php:113-125 | a non-empty run of digits passes `is_numeric`; the empty string does not |
| Php.IsNumeric | Amazon/MCF/Controller/Ajax/FBAData.php:124 | PHP 8 `is_numeric` on a string: surrounding whitespace, an optional sign, digits with an optional fraction (or a fraction alone) and an optional exponent; its content is stated by Php.DigitStringsAreNumeric and FbaData.DigitParamsAreValid |
| Cursors.VariableStore.constructor | Amazon/MCF/Helper/Data.php:646-651 | an empty variable store has no rows |
| Cursors.VariableStore.Plain | Amazon/MCF/Helper/Data.php:646-651 | a load by code yields a plain value exactly when a row with that code exists, and that row's plain value |
| Cursors.VariableStore.Upsert | Amazon/MCF/Helper/Data.php:658-680 | load-then-save writes the row for the code (name, html and plain value all from the call) and no other row |
| Cursors.VariableStore.InventoryProcessRow | Amazon/MCF/Helper/Data.php:646-651 | a stored non-negative row number is read back as that number |
| Cursors.VariableStore.InventoryProcessStatus | Amazon/MCF/Helper/Data.php:687-697 | whether the full sync has finished a pass; Cursors.VariableStore.SetInventoryProcessStatus states what reads back after a write |
| Cursors.VariableStore.SetInventoryProcessRow | Amazon/MCF/Helper/Data.php:658-680 | upserts only the sync-page row, and the getter then returns the row set |
| Cursors.VariableStore.SetInventoryProcessStatus | Amazon/MCF/Helper/Data.php:699-721 | upserts only the sync-running row, and the status getter then returns the flag set |
| Cursors.VariableStore.InventoryRowCount | Amazon/MCF/Helper/Data.php:85 | the full-sync page size is 45 |
| Cursors.VariableStore.InventoryNextToken | Amazon/MCF/Helper/Data.php:739-744 | the stored token text, or "" when none is stored |
| Cursors.VariableStore.SetInventoryNextToken | Amazon/MCF/Helper/Data.php:751-773 | upserts only the inventory-token row, and the getter then returns the token set |
| Cursors.VariableStore.OrderNextToken | Amazon/MCF/Helper/Data.php:778-783 | the stored order token, read by code |
| Cursors.VariableStore.SetOrderNextToken | Amazon/MCF/Helper/Data.php:788-810 | upserts only the order-token row, and the getter then returns it |
| Cursors.VariableStore.OrderProcessRunning | Amazon/MCF/Helper/Data.php:815-820 | the stored order-running value, read by code |
| Cursors.VariableStore.SetOrderProcessRunning | Amazon/MCF/Helper/Data.php:825-848 | upserts only the order-running row, and the getter then returns it |
| Cursors.VariableStore.OrderProcessPage | Amazon/MCF/Helper/Data.php:853-864 | an empty or falsy stored page reads as 1, a truthy one as itself; the result is always truthy |
| Cursors.VariableStore.SetOrderProcessPage | Amazon/MCF/Helper/Data.php:869-879 | upserts only the order-page row; setting 0 reads back as page 1, any other page as itself |
| Cursors.CursorCodesDistinct | Amazon/MCF/Helper/Data.php:81-93 | the six cursor codes are pairwise distinct, so each setter leaves the other cursors unchanged |
| Config.DefaultValue | Amazon/MCF/Helper/Data.php:508-517 | a default-scope read; a path the default scope does not set reads as the empty string |
| Config.StoreValue | Amazon/MCF/Helper/Data.php:508-517 | a store-scoped read: the store's own value when it sets the path, otherwise the default scope's value (the website scope is not modelled, see Left out) |
| Config.ScopedValue | Amazon/MCF/Helper/Data.php:508-517 | the read every getter makes: store-scoped for a non-zero store id, and exactly the default-scope value for store id 0 |
| Config.SellerId | Amazon/MCF/Helper/Data.php:508-517 | the seller id at the requested scope; Config.VerifyConfigNeedsAllFour states that a falsy one disables the module |
| Config.AccessKeyId | Amazon/MCF/Helper/Data.php:527-544 | the access key id at the requested scope, stored in plain text; Config.VerifyConfigNeedsAllFour states its role |
| Config.SecretAccessKey | Amazon/MCF/Helper/Data.php:554-571 | the secret key at the requested scope, stored in plain text; Config.VerifyConfigNeedsAllFour states its role |
| Config.ResolveEndpoint | Amazon/MCF/Helper/Data.php:494-498 | the custom endpoint replaces the configured one iff the configured one is `custom` and the custom value is truthy |
| Config.GetEndpointAsWritten | Amazon/MCF/Helper/Data.php:476-499 | with a store id, when the packing-slip text at store scope is not `custom`, the "endpoint" returned is that packing-slip text |
| Config.GetEndpoint | Amazon/MCF/Helper/Data.php:476-499 | the configured endpoint at the requested scope is returned unless it is `custom`; the result differs from it only when it is `custom`, and then it is the truthy custom endpoint at the same scope |
| Config.EndpointAgreesWithoutStore | Amazon/MCF/Helper/Data.php:489-492 | without a store id the code as written and the corrected endpoint agree |
| Config.EndpointStoreBranchReadsPackingSlip | Amazon/MCF/Helper/Data.php:478-483 | a concrete configuration where the store-scoped endpoint is the packing-slip text, not the configured endpoint |
| Config.VerifyConfigNeedsAllFour | Amazon/MCF/Helper/Data.php:617-639 | the configuration verifies iff endpoint, access key, secret key and seller id (default scope) are all non-empty |
| Config.VerifyConfig | Amazon/MCF/Helper/Data.php:617-639 | verifyConfig: endpoint, access key, secret key and seller id at default scope all truthy; Config.VerifyConfigNeedsAllFour and Config.IsEnabled state it |
| Config.IsEnabled | Amazon/MCF/Helper/Data.php:200-214 | never enabled without a verified configuration; with one, enabled iff the scoped enable flag is truthy |
| Config.AmazonCarrierEnabled | Amazon/MCF/Helper/Data.php:223-234 | the scoped carrier `active` flag |
| Config.SendAmazonShipConfirmation | Amazon/MCF/Helper/Data.php:243-254 | the scoped ship-confirmation flag |
| Config.DisplayShippingCosts | Amazon/MCF/Helper/Data.php:264-275 | the scoped display-shipping-cost flag |
| Config.DisplayDeliveryBlock | Amazon/MCF/Helper/Data.php:285-299 | off unless the configuration verifies and the carrier is enabled; then the scoped display flag |
| Config.DisplayEstimatedArrival | Amazon/MCF/Helper/Data.php:343-357 | off unless the configuration verifies; then the scoped flag |
| Config.PackingSlipComment | Amazon/MCF/Helper/Data.php:366-387 | the default-scope comment when the configuration verifies and the value is truthy, else "Thank you for your order!" |
| Config.PackingSlipIgnoresStore | Amazon/MCF/Helper/Data.php:372-379 | the store-scoped read is always overwritten, so every store gets the default-scope comment, and the comment is never empty |
| Config.StoreCountry | Amazon/MCF/Helper/Data.php:308-333 | store 0 gives the default country; another store gives its own country when set, else the default country |
| Config.DefaultShippingCost | Amazon/MCF/Helper/Data.php:396-457 | a default shipping cost is "" without a verified configuration, else the scoped value |
| Config.DefaultStandardShippingCost | Amazon/MCF/Helper/Data.php:396-410 | the configured Standard cost; Config.DefaultShippingCost states its value |
| Config.DefaultExpeditedShippingCost | Amazon/MCF/Helper/Data.php:420-433 | the configured Expedited cost; Config.DefaultShippingCost states its value |
| Config.DefaultPriorityShippingCost | Amazon/MCF/Helper/Data.php:443-456 | the configured Priority cost; Config.DefaultShippingCost states its value |
| Config.IsDebug | Amazon/MCF/Helper/Data.php:464-466 | the debug flag, read at default scope only and truthy in PHP's sense |
| Config.UnverifiedDisablesEverything | Amazon/MCF/Helper/Data.php:200-214 | without verified credentials the extension, delivery block and arrival display are off and all three default costs are "" |
| McfAbstract.ServiceUrl | Amazon/MCF/Model/Service/MCFAbstract.php:56-59 | the URL is the endpoint, then the service name, then `2017-01-01` |
| McfAbstract.ServiceClass | Amazon/MCF/Model/Service/MCFAbstract.php:81-84 | the client class is the service class followed by `_Mock` in debug mode and `_Client` otherwise |
| McfAbstract.GetRequest | Amazon/MCF/Model/Service/MCFAbstract.php:112-120 | the request has the caller's keys plus SellerId; every caller value is kept, so a caller SellerId overrides the default |
| InventoryService.ListRequest | Amazon/MCF/Model/Service/Inventory.php:72-79 | the list request always has SellerId and SellerSkus; QueryStartDateTime is present iff startTime is truthy and the SKU list empty, and then it is startTime |
| InventoryService.GetFulfillmentInventoryList | Amazon/MCF/Model/Service/Inventory.php:67-88 | None iff the call throws, else the client's response to that request |
| InventoryService.NextTokenRequest | Amazon/MCF/Model/Service/Inventory.php:139-142 | the next-token request passes the token unchanged |
| InventoryService.GetListInventorySupplyByNextToken | Amazon/MCF/Model/Service/Inventory.php:134-151 | None iff the call throws, else the response |
| InventoryService.CredentialsRequest | Amazon/MCF/Model/Service/Inventory.php:99-108 | the probe request has no SKU list and a start time |
| InventoryService.CheckCredentials | Amazon/MCF/Model/Service/Inventory.php:96-124 | the result is `success` iff the probe returns, else `fail`, and the message always matches the result |
| Conversion.ShippingSpeed | Amazon/MCF/Helper/Conversion.php:181-197 | defined exactly on the six listed method codes, always Standard, Priority or Expedited; Priority and Expedited come only from the two matching carrier codes |
| Conversion.CarrierCode | Amazon/MCF/Helper/Conversion.php:204-211 | the table code for a known carrier, else the raw code with spaces turned to `_` and lower-cased |
| Conversion.CarrierTitle | Amazon/MCF/Helper/Conversion.php:218-225 | the table title for a known carrier, else the raw code |
| Conversion.KnownCarrier | Amazon/MCF/Helper/Conversion.php:43-52 | the carrier table: USPS, UPS, UPSM, DHL and FEDEX with their codes and titles, nothing else; Conversion.CarrierCode, Conversion.CarrierTitle and Conversion.UpsVariantsAgree state it |
| Conversion.UpsVariantsAgree | Amazon/MCF/Helper/Conversion.php:43-52 | UPS and UPSM map to the same code `ups` and the same title |
| Conversion.CarrierCodeNormalised | Amazon/MCF/Helper/Conversion.php:204-211 | every carrier code is free of spaces and capitals, and an unknown code keeps its length |
| Conversion.WrapItems | Amazon/MCF/Helper/Conversion.php:153-157 | `['member' => data]` exactly when data is non-empty, else the empty array |
| Conversion.ItemData | Amazon/MCF/Helper/Conversion.php:139-149 | SellerSKU is the merchant SKU when truthy, else the item SKU; quantity is qtyToShip when non-zero, else qtyOrdered; the id is quoteId when truthy, else quoteItemId |
| Conversion.Eligible | Amazon/MCF/Helper/Conversion.php:134-151 | a line is sent to Amazon exactly when its product is FBA-enabled and Magento can ship it; Conversion.EligibleItemsExact states the filter |
| Conversion.EligibleItems | Amazon/MCF/Helper/Conversion.php:134-151 | the fulfilment items of the FBA-enabled, shippable lines, in line order; Conversion.EligibleItemsAppend and Conversion.EligibleItemsExact state it |
| Conversion.EligibleItemsAppend | Amazon/MCF/Helper/Conversion.php:134-151 | the item list is built line by line in order: the list for a + b is the list for a, then the list for b |
| Conversion.EligibleItemsExact | Amazon/MCF/Helper/Conversion.php:134-151 | each entry comes from an FBA-enabled, shippable line; every such line contributes its entry; the list is empty iff no line qualifies |
| Conversion.GetAmazonItemsArrayFromRateRequest | Amazon/MCF/Helper/Conversion.php:130-157 | the loop produces the wrapped list of eligible lines' item data |
| OutboundService.PreviewRequestFor | Amazon/MCF/Model/Service/Outbound.php:85-89 | the preview request carries the seller id, the address and the items as given |
| OutboundService.GetFulfillmentPreview | Amazon/MCF/Model/Service/Outbound.php:81-99 | None iff the preview call throws, else its response |
| OutboundService.FirstFee | Amazon/MCF/Model/Service/Outbound.php:138-144 | the estimate cost is the first fee's amount, 0 without fees |
| OutboundService.ShipmentTime | Amazon/MCF/Model/Service/Outbound.php:147-156 | the earliest-arrival time when present overrides the latest-arrival time; 0 when neither is set |
| OutboundService.ShipmentsFold | Amazon/MCF/Model/Service/Outbound.php:130-157 | the inner loop's state after one preview's shipments; OutboundService.ShipmentsFoldFacts states it |
| OutboundService.EstimateFold | Amazon/MCF/Model/Service/Outbound.php:122-167 | the state after the preview loop; OutboundService.CounterCountsShipments, OutboundService.EstimateOnlyFulfillable, OutboundService.LastPreviewRow and OutboundService.NothingFulfillableNoRows state it |
| OutboundService.ShipmentsFoldFacts | Amazon/MCF/Model/Service/Outbound.php:130-157 | the inner loop adds one to the counter per shipment, writes no row, and leaves the last shipment's time, dates and first fee |
| OutboundService.CounterCountsShipments | Amazon/MCF/Model/Service/Outbound.php:122-167 | the counter equals the number of shipments of the fulfillable previews seen |
| OutboundService.Fulfillable | Amazon/MCF/Model/Service/Outbound.php:125 | a preview counts unless its fulfillable flag is the string "false"; OutboundService.EstimateOnlyFulfillable and OutboundService.NothingFulfillableNoRows state its effect |
| OutboundService.EstimateOnlyFulfillable | Amazon/MCF/Model/Service/Outbound.php:125 | every estimate row comes from a preview whose isFulfillable is not `false`, with that preview's speed |
| OutboundService.LastPreviewRow | Amazon/MCF/Model/Service/Outbound.php:160-165 | a fulfillable preview with shipments writes its row under last-shipment time plus counter, with that shipment's dates and the preview's first fee |
| OutboundService.NothingFulfillableNoRows | Amazon/MCF/Model/Service/Outbound.php:125 | with no fulfillable preview, the dates map is empty |
| KeySort.SortedKeys | Amazon/MCF/Model/Service/Outbound.php:171 | what `ksort` leaves: as many keys as the set holds, each from the set; KeySort.SortedKeysAscending, KeySort.SortedKeysMin and KeySort.SortedKeysComplete state the order |
| KeySort.SortedKeysAscending | Amazon/MCF/Model/Service/Outbound.php:171 | `ksort` order: the keys are listed strictly ascending |
| KeySort.SortedKeysMin | Amazon/MCF/Model/Service/Outbound.php:171 | the first sorted key is the minimum |
| KeySort.SortedKeysComplete | Amazon/MCF/Model/Service/Outbound.php:171 | `ksort` loses no key: every key of the dates array is listed |
| OutboundService.FoldShipments | Amazon/MCF/Model/Service/Outbound.php:130-157 | the inner loop computes the shipment fold |
| OutboundService.FoldPreviews | Amazon/MCF/Model/Service/Outbound.php:122-167 | the outer loop computes the preview fold |
| KeySort.SortedRows | Amazon/MCF/Model/Service/Outbound.php:169-175 | one row per dates entry, in ascending key order |
| OutboundService.EstimateRows | Amazon/MCF/Model/Service/Outbound.php:110-179 | the estimate rows: no rows without a preview, else the dates map's values in ascending key order; OutboundService.GetProductEstimate is proved to compute them |
| OutboundService.GetProductEstimate | Amazon/MCF/Model/Service/Outbound.php:110-179 | no rows without a preview; otherwise the dates map's rows in ascending key order |
| OutboundService.CreateFulfillmentOrderRequest | Amazon/MCF/Model/Service/Outbound.php:188-211 | FillOrKill; both order ids are the increment id; default-scope seller id and packing-slip comment; the mapped speed; the eligible items; a notification list, holding the customer's e-mail, iff ship confirmation is on for the store |
| OutboundService.CreateFulfillmentOrder | Amazon/MCF/Model/Service/Outbound.php:213-224 | None iff the create call throws, else its response |
| OutboundService.GetFulfillmentOrderRequest | Amazon/MCF/Model/Service/Outbound.php:238-243 | exactly SellerId (order's store) and SellerFulfillmentOrderId = increment id |
| OutboundService.GetFulfillmentOrder | Amazon/MCF/Model/Service/Outbound.php:234-255 | None iff the lookup throws, else its response |
| OutboundService.CancelRequest | Amazon/MCF/Model/Service/Outbound.php:271-274 | exactly SellerId and SellerFulfillmentOrderId = increment id |
| OutboundService.CancelFulfillmentOrder | Amazon/MCF/Model/Service/Outbound.php:264-300 | the cancel is issued iff the lookup returned; a response is reported iff the cancel was issued and returned |
| OrderObservers.SubmitOutcome | Amazon/MCF/Model/Observer/SubmitOrderObserver.php:59-87 | the submit observer on the record: the FBA flag, then received on a response or a first attempt without one; OrderObservers.SubmitFlagsFbaOrders and OrderObservers.FailedPlacementIsRetried state it |
| OrderObservers.SubmitFlagsFbaOrders | Amazon/MCF/Model/Observer/SubmitOrderObserver.php:66-76 | the FBA flag is set iff some item is FBA-enabled, before the enabled check; without the extension or an FBA item nothing else changes |
| OrderObservers.FailedPlacementIsRetried | Amazon/MCF/Model/Observer/SubmitOrderObserver.php:83-86 | a failed placement leaves (attempted, 1); four more failed resubmissions fail it, and fewer keep it attempted |
| OrderObservers.SubmitOrder | Amazon/MCF/Model/Observer/SubmitOrderObserver.php:59-87 | the order becomes the submit outcome (received/0 on a response, attempted/1 without one); one create request is sent iff enabled with an FBA item |
| OrderObservers.CancelObserverOutcome | Amazon/MCF/Model/Observer/CancelOrderObserver.php:60-77 | the cancel observer on the record: status cancelled when enabled, else unchanged; OrderObservers.CancelMarksBeforeSkip states it |
| OrderObservers.RemoteCancelIssued | Amazon/MCF/Model/Observer/CancelOrderObserver.php:63-76 | Amazon is asked to cancel exactly when the module is enabled and the order is not flagged to skip; OrderObservers.CancelObserverOutcome states it |
| OrderObservers.CancelMarksBeforeSkip | Amazon/MCF/Model/Observer/CancelOrderObserver.php:63-76 | when enabled the status is cancelled whether or not the remote cancel is skipped; when disabled nothing changes and no cancel is issued |
| OrderObservers.CancelOrder | Amazon/MCF/Model/Observer/CancelOrderObserver.php:60-77 | the order status follows the cancel outcome; the two-step remote cancel runs once iff enabled and not skipped |
| AdminSync.Synchronize | Amazon/MCF/Controller/Adminhtml/System/Config/AmazonSynchronize.php:64-73 | exactly the running flag goes to false and the row offset to 0; the reply is success with the sync message |
| InventoryStatus.ResetRestartsFullSync | Amazon/MCF/Cron/GetInventoryStatus.php:122 | after the admin reset the full-sync guard passes and the offset is row 0 |
| InventoryStatus.EnabledRows | Amazon/MCF/Cron/GetInventoryStatus.php:251-265 | a row is selected iff it is in the catalog and FBA-enabled |
| InventoryStatus.MerchantRows | Amazon/MCF/Cron/GetInventoryStatus.php:279-293 | a row is selected iff its merchant-SKU attribute exists and is not `1` |
| InventoryStatus.Slice | Amazon/MCF/Cron/GetInventoryStatus.php:266-269 | LIMIT count OFFSET start: at most count rows, none past the end, the rows from start on |
| InventoryStatus.AltSku | Amazon/MCF/Cron/GetInventoryStatus.php:301-305 | an alternate SKU is attached iff the merchant-SKU value exists, is not `1` and is truthy |
| InventoryStatus.QuerySku | Amazon/MCF/Cron/GetInventoryStatus.php:129-135 | the query SKU is the alternate SKU when one is attached, else the SKU |
| InventoryStatus.AscendingIds | Amazon/MCF/Cron/GetInventoryStatus.php:264-265 | the rows are ordered by strictly ascending entity id; InventoryStatus.EnabledRowsAscending states that the FBA query keeps it |
| InventoryStatus.EnabledRowsAscending | Amazon/MCF/Cron/GetInventoryStatus.php:264-265 | filtering keeps entity-id order |
| InventoryStatus.PageEntriesExact | Amazon/MCF/Cron/GetInventoryStatus.php:273-305 | one entry per page row, in row order, with that row's SKU and alternate SKU |
| InventoryStatus.PageEntriesStep | Amazon/MCF/Cron/GetInventoryStatus.php:273-305 | the entries of one more row are the earlier entries with that row's entry put under its entity id |
| InventoryStatus.FullSyncPageBounded | Amazon/MCF/Cron/GetInventoryStatus.php:241-269 | a page has at most 45 entries, one per row read |
| InventoryStatus.FullSyncPage | Amazon/MCF/Cron/GetInventoryStatus.php:241-269 | the FBA-enabled catalog rows from the stored offset, at most 45; InventoryStatus.FullSyncPageBounded states its bound |
| InventoryStatus.PageEntries | Amazon/MCF/Cron/GetInventoryStatus.php:273-305 | the corrected page: one entry per page row, alternate SKUs only from the page's own merchant-SKU rows; InventoryStatus.PageEntriesExact states its content |
| InventoryStatus.BaseEntriesAsWritten | Amazon/MCF/Cron/GetInventoryStatus.php:273-275 | the entries keyed by entity id before the merchant-SKU rows are attached; InventoryStatus.PhantomEntryAsWritten states what follows |
| InventoryStatus.AttachAltAsWritten | Amazon/MCF/Cron/GetInventoryStatus.php:279-305 | the merchant-SKU loop as written, which may create an entry without a Magento SKU; InventoryStatus.PhantomEntryAsWritten exhibits one |
| InventoryStatus.PhantomEntryAsWritten | Amazon/MCF/Cron/GetInventoryStatus.php:279-307 | as written, a merchant-SKU row outside the page adds an entry with no SKU (two entries where the corrected page has one), and the stored offset moves to row 2 where the corrected page moves it to row 1 |
| InventoryStatus.PageEntriesAsWritten | Amazon/MCF/Cron/GetInventoryStatus.php:273-305 | the page as written: no entries for an empty page, otherwise the merchant-SKU rows of their own LIMIT/OFFSET window attached by entity id, creating entries for entities off the page; InventoryStatus.PhantomEntryAsWritten exhibits it |
| InventoryStatus.NextRowAsWritten | Amazon/MCF/Cron/GetInventoryStatus.php:273-307 | the offset as written: moved on by the number of entries, phantom ones included, when the page is not empty; InventoryStatus.PhantomEntryAsWritten exhibits it |
| InventoryStatus.GetAmazonFulfilledSkus | Amazon/MCF/Cron/GetInventoryStatus.php:239-311 | returns the page entries at the stored offset; a non-empty page advances the offset by its size; an empty page leaves the cursors alone (uses the corrected PageEntries) |
| InventoryStatus.EntryOf | Amazon/MCF/Cron/GetInventoryStatus.php:301-305 | a row's entry: its SKU, and an alternate SKU exactly when InventoryStatus.AltSku gives one |
| InventoryStatus.BuildPageEntries | Amazon/MCF/Cron/GetInventoryStatus.php:273-305 | the loops build the corrected page entries |
| InventoryStatus.QuerySkus | Amazon/MCF/Cron/GetInventoryStatus.php:129-135 | one query SKU per entry, in entry order |
| InventoryStatus.QuerySkuList | Amazon/MCF/Cron/GetInventoryStatus.php:129-135 | the loop builds the query SKU list |
| InventoryStatus.CountsForFullSync | Amazon/MCF/Cron/GetInventoryStatus.php:171-179 | a record counts when it has a truthy SKU, availability "Immediately" and a non-zero quantity; InventoryStatus.FullSkuQuantitiesSound states its use |
| InventoryStatus.FullSkuQuantities | Amazon/MCF/Cron/GetInventoryStatus.php:169-181 | the SKU-to-quantity list of the counted records, later records overwriting earlier ones; InventoryStatus.FullSkuQuantitiesSound states it |
| InventoryStatus.FullSkuQuantitiesSound | Amazon/MCF/Cron/GetInventoryStatus.php:171-181 | a SKU has a quantity iff some record with it is non-empty, Immediately available and truthy in stock; kept quantities are non-zero |
| InventoryStatus.GetFullSkuQuantities | Amazon/MCF/Cron/GetInventoryStatus.php:171-181 | the loop builds the filtered quantity map |
| InventoryStatus.ResolveEntry | Amazon/MCF/Cron/GetInventoryStatus.php:184-207 | an entry's update: the canonical SKU's non-zero quantity, else the alternate SKU's, else 0 and unmatched; InventoryStatus.ResolveEntryRules states the order of the rules |
| InventoryStatus.ResolveEntryRules | Amazon/MCF/Cron/GetInventoryStatus.php:184-207 | qty 0 by default; a canonical-SKU match wins over an alternate match; hasData iff either matched; the update keeps the Magento SKU |
| InventoryStatus.FullUpdates | Amazon/MCF/Cron/GetInventoryStatus.php:184-207 | one update per entry, in order, keyed by entity id |
| InventoryStatus.ApplyFullWrites | Amazon/MCF/Cron/GetInventoryStatus.php:210-226 | the stock items after the page's writes; InventoryStatus.FullWritesExact, InventoryStatus.FullWritesIdempotent and InventoryStatus.WritesKeys state what it writes |
| InventoryStatus.FullWritesOutside | Amazon/MCF/Cron/GetInventoryStatus.php:210-226 | entities without an update keep their stock |
| InventoryStatus.FullWritesAt | Amazon/MCF/Cron/GetInventoryStatus.php:214-225 | an updated entity gets the update's qty and is in stock iff qty > 0 |
| InventoryStatus.FullWritesExact | Amazon/MCF/Cron/GetInventoryStatus.php:210-226 | both of the above for any entity |
| InventoryStatus.FullWritesIdempotent | Amazon/MCF/Cron/GetInventoryStatus.php:210-226 | writing the same updates twice equals writing them once |
| InventoryStatus.WritesKeys | Amazon/MCF/Cron/GetInventoryStatus.php:214-226 | the writes create stock items for exactly the updated entities |
| InventoryStatus.MismatchSkus | Amazon/MCF/Cron/GetInventoryStatus.php:456-464 | the query SKUs of the unmatched entries, in entry order; InventoryStatus.MismatchSkusExact states it in both directions |
| InventoryStatus.MismatchSkusExact | Amazon/MCF/Cron/GetInventoryStatus.php:456-464 | a SKU is listed iff it is the query SKU of an entry nobody matched |
| InventoryStatus.FullSyncNotice | Amazon/MCF/Cron/GetInventoryStatus.php:452-481 | the page's notice: the mismatch list when some entry is unmatched, else all matched; InventoryStatus.CreateInventoryNotifications adds it |
| InventoryStatus.CreateInventoryNotifications | Amazon/MCF/Cron/GetInventoryStatus.php:452-481 | appends exactly one notice, the mismatch notice for the unmatched entries or the all-matched notice |
| InventoryStatus.WriteFullUpdates | Amazon/MCF/Cron/GetInventoryStatus.php:210-226 | the stock becomes the full-sync writes of the updates |
| InventoryStatus.ProcessSupplyListData | Amazon/MCF/Cron/GetInventoryStatus.php:165-231 | stock becomes the writes of the resolved updates; one notice is added iff the page is non-empty |
| InventoryStatus.FullSyncStock | Amazon/MCF/Cron/GetInventoryStatus.php:137-149 | the stock items after one page of the full sync, unchanged without a response or with an empty supply list; InventoryStatus.SyncPage reaches it |
| InventoryStatus.FullSyncNotices | Amazon/MCF/Cron/GetInventoryStatus.php:137-149 | the notice one page of the full sync raises, none without a response or with an empty supply list; InventoryStatus.SyncPage raises them |
| InventoryStatus.SyncPage | Amazon/MCF/Cron/GetInventoryStatus.php:137-149 | the page is queried by its query SKUs; a response with records is processed, otherwise nothing changes |
| InventoryStatus.CronFullInventoryStatus | Amazon/MCF/Cron/GetInventoryStatus.php:118-156 | nothing happens when the done flag is truthy; an empty page sets the flag and rewinds the offset to 0; otherwise the offset advances by the page size and the page is synced (uses the corrected PageEntries) |
| InventoryStatus.FullSyncPass | Amazon/MCF/Cron/GetInventoryStatus.php:123-154 | with the done flag clear: an empty page sets the flag and rewinds the offset to 0; otherwise the offset advances past the page and the page's answer is written (uses the corrected PageEntries) |
| InventoryStatus.FinishFullSync | Amazon/MCF/Cron/GetInventoryStatus.php:150-153 | exactly the done flag is set and the offset goes to row 0 |
| InventoryStatus.AllSkuQuantities | Amazon/MCF/Cron/GetInventoryStatus.php:430-444 | the SKU-to-quantity list of every record with a truthy SKU, whatever its availability; InventoryStatus.AllSkuQuantitiesKeys states its keys |
| InventoryStatus.AllSkuQuantitiesKeys | Amazon/MCF/Cron/GetInventoryStatus.php:430-444 | every returned SKU is kept, whatever its availability |
| InventoryStatus.GetSkuQuantities | Amazon/MCF/Cron/GetInventoryStatus.php:430-444 | the loop builds the unfiltered quantity map |
| InventoryStatus.CanonicalMatches | Amazon/MCF/Cron/GetInventoryStatus.php:375-395 | the FBA-enabled products whose SKU was returned, keyed by entity id; InventoryStatus.CanonicalMatchesEmpty and InventoryStatus.AltMatchOverridesCanonical state it |
| InventoryStatus.MerchantMatches | Amazon/MCF/Cron/GetInventoryStatus.php:412-417 | the products whose merchant SKU was returned, overwriting earlier matches; InventoryStatus.MerchantMatchesOther, InventoryStatus.MerchantMatchesSplit and InventoryStatus.AltMatchOverridesCanonical state it |
| InventoryStatus.InventoryMatches | Amazon/MCF/Cron/GetInventoryStatus.php:348-421 | the matches of both queries; InventoryStatus.GetMagentoInventoryData computes it |
| InventoryStatus.MerchantMatchesOther | Amazon/MCF/Cron/GetInventoryStatus.php:412-417 | the merchant-SKU pass changes no entity outside its rows |
| InventoryStatus.AltMatchOverridesCanonical | Amazon/MCF/Cron/GetInventoryStatus.php:385-417 | an alternate-SKU match overwrites the canonical match of the same entity, with the alternate SKU's quantity and the Magento SKU |
| InventoryStatus.MerchantMatchesSplit | Amazon/MCF/Cron/GetInventoryStatus.php:412-417 | the merchant-SKU pass can be run in two halves |
| InventoryStatus.CanonicalMatchesEmpty | Amazon/MCF/Cron/GetInventoryStatus.php:358 | no quantities, no canonical matches |
| InventoryStatus.MerchantMatchesEmpty | Amazon/MCF/Cron/GetInventoryStatus.php:358 | no quantities, no merchant matches |
| InventoryStatus.GetMagentoInventoryData | Amazon/MCF/Cron/GetInventoryStatus.php:348-421 | the two loops build the merged match map |
| InventoryStatus.ApplyQtyWrites | Amazon/MCF/Cron/GetInventoryStatus.php:330-334 | the stock items after the incremental writes; InventoryStatus.QtyWritesKeepStockFlag states that only quantities change |
| InventoryStatus.QtyWritesKeepStockFlag | Amazon/MCF/Cron/GetInventoryStatus.php:330-334 | the incremental path writes qty only; the in-stock flag is never touched, and unmatched entities keep their stock |
| Magento.StockOf | Amazon/MCF/Cron/GetInventoryStatus.php:215 | `getStockItem`: the entity's stock item, an empty one when it has none |
| Magento.StockRegistry.StockItemOf | Amazon/MCF/Cron/GetInventoryStatus.php:215 | `getStockItem` on the registry: the stock item its current contents give for the entity |
| Magento.Restocked | Amazon/MCF/Cron/GetInventoryStatus.php:216-224 | the quantity is set and the item is in stock exactly when that quantity is positive |
| Magento.StockRegistry.UpdateStockItem | Amazon/MCF/Cron/GetInventoryStatus.php:225 | the entity's stock item becomes the one written; every other entity keeps its stock |
| InventoryStatus.WriteMatches | Amazon/MCF/Cron/GetInventoryStatus.php:330-334 | the stock becomes the qty writes of the matches |
| InventoryStatus.MatchedSkus | Amazon/MCF/Cron/GetInventoryStatus.php:495-497 | one Magento SKU per match, in order |
| InventoryStatus.MissingSkus | Amazon/MCF/Cron/GetInventoryStatus.php:495-503 | the returned SKUs that are no match's Magento SKU, in returned order; InventoryStatus.MissingSkusExact states it (plain string comparison, see Left out) |
| InventoryStatus.MissingSkusExact | Amazon/MCF/Cron/GetInventoryStatus.php:499-503 | a returned SKU is listed iff it is not the Magento SKU of any match |
| InventoryStatus.AltMatchedStillListedMissing | Amazon/MCF/Cron/GetInventoryStatus.php:495-503 | a SKU matched only through a merchant SKU is still listed as missing |
| InventoryStatus.MissingNotices | Amazon/MCF/Cron/GetInventoryStatus.php:490-513 | the missing-products notice, raised only when SKUs were returned and some are missing; InventoryStatus.CreateMissingInventoryNotifications raises it |
| InventoryStatus.CreateMissingInventoryNotifications | Amazon/MCF/Cron/GetInventoryStatus.php:490-513 | one missing-products notice is added iff some returned SKU is missing |
| InventoryStatus.UpdateInventoryProcessStatus | Amazon/MCF/Cron/GetInventoryStatus.php:319-339 | stock gets the qty writes of the merged matches; the missing notice, if any, is added |
| InventoryStatus.IncrementalCall | Amazon/MCF/Cron/GetInventoryStatus.php:80-87 | a truthy stored token is fetched by that token, otherwise by start time with no SKUs |
| InventoryStatus.IncrementalResponse | Amazon/MCF/Cron/GetInventoryStatus.php:80-87 | the supply response by stored token or by start time, as InventoryStatus.IncrementalCall chooses; InventoryStatus.CronCurrentInventoryStatus uses it |
| InventoryStatus.NextStoredToken | Amazon/MCF/Cron/GetInventoryStatus.php:89-109 | the response's truthy next token, else "" (also when there is no response) |
| InventoryStatus.CronCurrentInventoryStatus | Amazon/MCF/Cron/GetInventoryStatus.php:77-110 | the call is chosen by the stored token; only the token row changes among the cursors; a response with records is processed, otherwise nothing else changes |
| OrderStatus.StoreEnabled | Amazon/MCF/Cron/GetOrderStatus.php:152-156 | a store is polled when it is active and the module is enabled for it; OrderStatus.EnabledStoreIdsExact states the filter |
| OrderStatus.Pollable | Amazon/MCF/Cron/GetOrderStatus.php:161-180 | the polling collection: enabled store, state new or processing, fulfilled by Amazon, and status received, planning or processing; OrderStatus.OrderUpdate polls exactly these |
| OrderStatus.EnabledStoreIdsExact | Amazon/MCF/Cron/GetOrderStatus.php:152-156 | a store id is collected iff some store with it is active and enabled |
| OrderStatus.EnabledStoreIds | Amazon/MCF/Cron/GetOrderStatus.php:152-156 | the ids of the active stores whose extension is enabled, in store order; OrderStatus.EnabledStoreIdsExact states it |
| OrderStatus.CollectEnabledStores | Amazon/MCF/Cron/GetOrderStatus.php:152-156 | the loop collects the enabled store ids |
| OrderStatus.CancelMatches | Amazon/MCF/Cron/GetOrderStatus.php:254 | a line matches when its product SKU or merchant SKU was listed; OrderStatus.CancelTouchesOnlyMatching states its use |
| OrderStatus.Cancellable | Amazon/MCF/Cron/GetOrderStatus.php:254-256 | a matching line not yet fully cancelled; OrderStatus.CancelledSkusExact states its use |
| OrderStatus.CancelLine | Amazon/MCF/Cron/GetOrderStatus.php:256-260 | a cancellable line gets its ordered quantity cancelled, any other stays as it is; OrderStatus.CancelIdempotent and OrderStatus.CancelTouchesOnlyMatching state it |
| OrderStatus.CancelledSkus | Amazon/MCF/Cron/GetOrderStatus.php:261 | the SKUs of the cancelled lines, in line order; OrderStatus.CancelledSkusExact and OrderStatus.CancelledSkusEmptyIff state it |
| OrderStatus.CancelledLines | Amazon/MCF/Cron/GetOrderStatus.php:252-264 | cancellation keeps the number of lines |
| OrderStatus.CancelTouchesOnlyMatching | Amazon/MCF/Cron/GetOrderStatus.php:252-264 | a line whose SKU or merchant SKU Amazon lists, and that is not fully cancelled, gets qtyCanceled = qtyOrdered; every other line is unchanged |
| OrderStatus.CancelledSkusEmptyIff | Amazon/MCF/Cron/GetOrderStatus.php:267-271 | no comment iff no line was cancellable |
| OrderStatus.CancelledSkusExact | Amazon/MCF/Cron/GetOrderStatus.php:261 | a SKU is reported iff it is the SKU of a cancellable line |
| OrderStatus.CancelIdempotent | Amazon/MCF/Cron/GetOrderStatus.php:256 | cancelling twice equals cancelling once, and leaves nothing cancellable |
| OrderStatus.CancelOutcomeIdempotent | Amazon/MCF/Cron/GetOrderStatus.php:239-274 | a second cancellation with the same item list changes nothing |
| OrderStatus.CancelOutcome | Amazon/MCF/Cron/GetOrderStatus.php:239-274 | cancelFBAShipment on the record: nothing unless the order can be cancelled and Amazon lists items; then the matching lines are cancelled and a comment is added iff some SKU was cancelled; OrderStatus.CancelOutcomeIdempotent and OrderStatus.CancelNeverShips state it |
| OrderStatus.CancelStep | Amazon/MCF/Cron/GetOrderStatus.php:252-264 | one loop step cancels one more line and may add its SKU |
| OrderStatus.CancelLines | Amazon/MCF/Cron/GetOrderStatus.php:252-264 | the loop leaves every listed, not fully cancelled line cancelled in place, other lines as they were, and returns their product SKUs in line order; no other order field is touched |
| OrderStatus.CancelFBAShipment | Amazon/MCF/Cron/GetOrderStatus.php:239-274 | only if the order can be cancelled: the matching lines are cancelled and one comment listing their SKUs is added iff there is any |
| OrderStatus.AllShipmentItems | Amazon/MCF/Cron/GetOrderStatus.php:365-368 | every shipped item of every Amazon shipment, in order; OrderStatus.GroupShipmentItems reads it |
| OrderStatus.AllPackages | Amazon/MCF/Cron/GetOrderStatus.php:461-477 | every package of every Amazon shipment, in order; OrderStatus.AllPackagesExact states it |
| OrderStatus.AllPackagesExact | Amazon/MCF/Cron/GetOrderStatus.php:461-477 | a package is collected exactly when some shipment of the order carries it |
| OrderStatus.AddToGroup | Amazon/MCF/Cron/GetOrderStatus.php:371-374 | appends a (SKU, quantity) pair to its package's group; OrderStatus.AddToGroupGet states it |
| OrderStatus.GroupItems | Amazon/MCF/Cron/GetOrderStatus.php:365-377 | the items grouped by package number; OrderStatus.GroupItemsExact and OrderStatus.GroupItemsDistinct state it |
| OrderStatus.AddToGroupGet | Amazon/MCF/Cron/GetOrderStatus.php:371-374 | an item is appended to its package's group, and other groups are unchanged |
| OrderStatus.GroupItemsDistinct | Amazon/MCF/Cron/GetOrderStatus.php:365-377 | groups are keyed by distinct package numbers (one shipment per package) |
| OrderStatus.GroupItemsExact | Amazon/MCF/Cron/GetOrderStatus.php:365-377 | a package's group holds exactly its items, in order |
| OrderStatus.AttachTracking | Amazon/MCF/Cron/GetOrderStatus.php:384-393 | a package whose number has a group sets that group's carrier; OrderStatus.AttachTrackingExact states it |
| OrderStatus.LastPackage | Amazon/MCF/Cron/GetOrderStatus.php:384-393 | the package that last carries a number; OrderStatus.AttachTrackingExact uses it |
| OrderStatus.PackageCarrier | Amazon/MCF/Cron/GetOrderStatus.php:387-390 | a package's carrier code and title, as the conversion helper derives them; OrderStatus.AttachTrackingExact states its use |
| OrderStatus.AttachTrackingExact | Amazon/MCF/Cron/GetOrderStatus.php:384-393 | tracking is attached only to groups already present, from the last listed package with that number and its carrier code and title; no group is added |
| OrderStatus.AttachTrackingEmpty | Amazon/MCF/Cron/GetOrderStatus.php:379 | no groups, nothing to track |
| OrderStatus.ShipsLine | Amazon/MCF/Cron/GetOrderStatus.php:406-410 | a line takes a package entry when its SKU matches, it still has quantity to ship and it is not virtual; OrderStatus.LineShipmentItemsSound states its use |
| OrderStatus.LineShipmentItems | Amazon/MCF/Cron/GetOrderStatus.php:405-418 | the shipment items one order line gets from a package; OrderStatus.LineShipmentItemsSound states it |
| OrderStatus.ShipmentItems | Amazon/MCF/Cron/GetOrderStatus.php:402-419 | the shipment items of all order lines for a package; OrderStatus.ShipmentItemsSound and OrderStatus.UnmatchedPackageShipsNothing state it |
| OrderStatus.LineShipmentItemsSound | Amazon/MCF/Cron/GetOrderStatus.php:405-418 | each shipment item ships a line with a matching SKU, a non-zero qtyToShip and no virtual flag, at the remote quantity |
| OrderStatus.ShipmentItemsSound | Amazon/MCF/Cron/GetOrderStatus.php:402-419 | the same for the whole order, with the line index in range |
| OrderStatus.UnmatchedPackageShipsNothing | Amazon/MCF/Cron/GetOrderStatus.php:402-419 | a package no line matches ships nothing |
| OrderStatus.ShipmentItemsSoundEmpty | Amazon/MCF/Cron/GetOrderStatus.php:405-418 | a line no entry matches ships nothing |
| OrderStatus.MerchantSkuLostAsWritten | Amazon/MCF/Cron/GetOrderStatus.php:408 | a package item naming a product's merchant SKU matches as intended but not as written |
| OrderStatus.ShipMatches | Amazon/MCF/Cron/GetOrderStatus.php:406-408 | the corrected SKU test: a package item matches a line whose product SKU or merchant SKU equals its seller SKU; OrderStatus.MerchantSkuLostAsWritten and OrderStatus.LineShipmentItemsSound state it |
| OrderStatus.ShipMatchesAsWritten | Amazon/MCF/Cron/GetOrderStatus.php:406-408 | the SKU test as written: the misspelt getter is null, so only the product SKU or an empty seller SKU matches; OrderStatus.MerchantSkuLostAsWritten exhibits it |
| OrderStatus.Drafts | Amazon/MCF/Cron/GetOrderStatus.php:397-431 | one draft shipment per package group (uses the corrected ShipMatches) |
| OrderStatus.TrackFor | Amazon/MCF/Cron/GetOrderStatus.php:421-431 | a track numbered by the package exactly when the group has a carrier; OrderStatus.DraftsFollowGroups states its use |
| OrderStatus.Draft | Amazon/MCF/Cron/GetOrderStatus.php:421-431 | the shipment drafted for one package, with its track when the package has a carrier; OrderStatus.DraftsFollowGroups states it |
| OrderStatus.PackageGroupsOf | Amazon/MCF/Cron/GetOrderStatus.php:365-393 | the groups the shipment loop walks; OrderStatus.DraftsFollowGroups states what they become |
| OrderStatus.DraftsFollowGroups | Amazon/MCF/Cron/GetOrderStatus.php:397-431 | draft i is for group i's package, with its items and tracking number = package number |
| OrderStatus.RegisteredExact | Amazon/MCF/Cron/GetOrderStatus.php:433-444 | a shipment is saved iff it is a draft and registration succeeds; a failing one is skipped |
| OrderStatus.Registered | Amazon/MCF/Cron/GetOrderStatus.php:433-444 | the drafts whose registration succeeds, in draft order; OrderStatus.RegisteredExact states it |
| OrderStatus.ShipmentOutcome | Amazon/MCF/Cron/GetOrderStatus.php:358-453 | createShipment on the record: nothing when the order cannot ship, otherwise the registered drafts of the package groups are appended; OrderStatus.NoItemsNoShipments and OrderStatus.CompleteOnlyAddsShipments state it (uses the corrected ShipMatches) |
| OrderStatus.NoItemsNoShipments | Amazon/MCF/Cron/GetOrderStatus.php:379 | no package items, no change |
| OrderStatus.GroupShipmentItems | Amazon/MCF/Cron/GetOrderStatus.php:365-377 | the nested loops group the items by package |
| OrderStatus.GroupMoreItems | Amazon/MCF/Cron/GetOrderStatus.php:368-376 | the inner loop extends the grouping of the earlier items by one shipment's items |
| OrderStatus.GetPackagesFromFulfillmentOrder | Amazon/MCF/Cron/GetOrderStatus.php:461-477 | the packages of all shipments, concatenated in order |
| OrderStatus.AttachPackageTracking | Amazon/MCF/Cron/GetOrderStatus.php:384-393 | the loop attaches the tracking data |
| OrderStatus.BuildShipment | Amazon/MCF/Cron/GetOrderStatus.php:399-431 | the loops build the draft shipment for one package (uses the corrected ShipMatches) |
| OrderStatus.ShipmentStep | Amazon/MCF/Cron/GetOrderStatus.php:397-445 | one step saves at most one more shipment |
| OrderStatus.SaveShipment | Amazon/MCF/Cron/GetOrderStatus.php:397-444 | one package: its draft shipment is saved iff it registers; only the shipments change (uses the corrected ShipMatches) |
| OrderStatus.SaveShipments | Amazon/MCF/Cron/GetOrderStatus.php:397-445 | exactly the successfully registered drafts are added, in order; nothing else changes (uses the corrected ShipMatches) |
| OrderStatus.CreateShipment | Amazon/MCF/Cron/GetOrderStatus.php:358-453 | the order becomes the shipment outcome (nothing when it cannot ship) (uses the corrected ShipMatches) |
| OrderStatus.PollKeepsStatus | Amazon/MCF/Cron/GetOrderStatus.php:206-218 | no branch of the dispatch writes the Amazon status, the submission count or the FBA flag |
| OrderStatus.PollNeedsEchoedId | Amazon/MCF/Cron/GetOrderStatus.php:199-203 | nothing changes unless the remote displayable id equals the increment id |
| OrderStatus.IsCompleteStatus | Amazon/MCF/Cron/GetOrderStatus.php:208-209 | the two complete statuses; OrderStatus.CompleteOnlyAddsShipments states what they trigger |
| OrderStatus.IsCancelStatus | Amazon/MCF/Cron/GetOrderStatus.php:212-214 | the three cancel statuses; OrderStatus.CancelNeverShips states what they trigger |
| OrderStatus.CompleteOnlyAddsShipments | Amazon/MCF/Cron/GetOrderStatus.php:208-211 | a complete status only adds shipments |
| OrderStatus.CancelNeverShips | Amazon/MCF/Cron/GetOrderStatus.php:212-216 | a cancel status adds no shipment and at most one comment |
| OrderStatus.Dispatch | Amazon/MCF/Cron/GetOrderStatus.php:206-218 | the status switch: complete statuses ship, INVALID, CANCELLED and UNFULFILLABLE cancel, any other leaves the record; OrderStatus.CompleteOnlyAddsShipments, OrderStatus.CancelNeverShips and OrderStatus.PollKeepsStatus state it |
| OrderStatus.PollOutcome | Amazon/MCF/Cron/GetOrderStatus.php:187-221 | polling one order: nothing without a response, an echoed id and a truthy status; otherwise the dispatch; OrderStatus.PollNeedsEchoedId states it |
| OrderStatus.PollOrder | Amazon/MCF/Cron/GetOrderStatus.php:187-221 | the order becomes the poll outcome (uses the corrected ShipMatches) |
| OrderStatus.OrderUpdate | Amazon/MCF/Cron/GetOrderStatus.php:146-227 | each pollable order (enabled store, new/processing, FBA, received/planning/processing) becomes its poll outcome; every other order is unchanged (uses the corrected ShipMatches) |
| OrderStatus.Resubmittable | Amazon/MCF/Cron/GetOrderStatus.php:490-510 | the resubmission collection: enabled store, state new or processing, fulfilled by Amazon, and status new or attempted; OrderStatus.ResubmitChosenCount and OrderStatus.ResubmitOrdersToAmazon state its use |
| OrderStatus.Accepted | Amazon/MCF/Cron/GetOrderStatus.php:517-520 | a create response counts when it exists and carries response metadata; OrderStatus.ResubmitTransitions states its effect |
| OrderStatus.ResubmitOutcome | Amazon/MCF/Cron/GetOrderStatus.php:515-529 | the corrected resubmission step, a null response counting as a failed attempt; OrderStatus.ResubmitTransitions and OrderStatus.ResubmitCountBounded state it |
| OrderStatus.ResubmitAsWritten | Amazon/MCF/Cron/GetOrderStatus.php:517-520 | the step as written: a null response ends the run with nothing saved; OrderStatus.ThrowingCreateNeverFailsAsWritten exhibits it |
| OrderStatus.ResubmitTransitions | Amazon/MCF/Cron/GetOrderStatus.php:515-529 | an accepted response gives received; otherwise the status stays or becomes fail; only status and count change |
| OrderStatus.ResubmitCountBounded | Amazon/MCF/Cron/GetOrderStatus.php:523-529 | a stored count below 5 stays below 5, and a rewritten count is the old one plus 1 |
| OrderStatus.FailedRuns | Amazon/MCF/Cron/GetOrderStatus.php:523-529 | the record after n failed resubmissions in a row; OrderStatus.FailedRunsCount and OrderStatus.FailsWithinRetries state it |
| OrderStatus.FailedRunsCount | Amazon/MCF/Cron/GetOrderStatus.php:527-529 | while under the limit, each failed run adds one to the count and nothing else |
| OrderStatus.FailsWithinRetries | Amazon/MCF/Cron/GetOrderStatus.php:523-529 | from count n < 5, exactly 5 − n failed runs give fail, and fewer keep the status |
| OrderStatus.ThrowingCreateNeverFailsAsWritten | Amazon/MCF/Cron/GetOrderStatus.php:517-520 | as written, a thrown create at count 4 reaches the null dereference; the corrected step fails the order |
| OrderStatus.ResubmitRank | Amazon/MCF/Cron/GetOrderStatus.php:509-510 | the number of eligible orders before position k, at most k |
| OrderStatus.ResubmitOrdersToAmazon | Amazon/MCF/Cron/GetOrderStatus.php:480-534 | each of the first 20 eligible orders (enabled store, new/processing, FBA, new/attempted) becomes its resubmit outcome; all others are unchanged |
| OrderStatus.ResubmitOne | Amazon/MCF/Cron/GetOrderStatus.php:515-531 | one order: received on an accepted response, failed once the attempt reaches the retry bound, otherwise the count goes up |
| OrderStatus.ResubmitChosen | Amazon/MCF/Cron/GetOrderStatus.php:490-510 | an order is on the first page when it is resubmittable and fewer than 20 resubmittable orders precede it; OrderStatus.ResubmitAtMostAPage and OrderStatus.ResubmitChosenCount state it |
| OrderStatus.ResubmitAtMostAPage | Amazon/MCF/Cron/GetOrderStatus.php:509-510 | at most 20 orders are chosen |
| OrderStatus.ResubmitChosenCount | Amazon/MCF/Cron/GetOrderStatus.php:509-510 | exactly min(eligible, 20) orders are chosen |
| Carrier.RequestAddress | Amazon/MCF/Model/Carrier/AmazonFulfillment.php:357-384 | the address fields copied from the request, each only when present; Carrier.RequestAddressFields and Carrier.JapanCityIsPlaceholder state it |
| Carrier.ShippingAddress | Amazon/MCF/Model/Carrier/AmazonFulfillment.php:354-412 | the prepared preview address: the copied fields completed with placeholders when a country and a postal code or region are present, else empty; Carrier.AddressNonEmptyIff and Carrier.AddressFields state it |
| Carrier.RequestAddressFields | Amazon/MCF/Model/Carrier/AmazonFulfillment.php:359-384 | each field is copied only when present: country (falling back to the store country), postcode, region, city except for JP, street |
| Carrier.AddressCountry | Amazon/MCF/Model/Carrier/AmazonFulfillment.php:359-368 | the destination country when truthy, else the store country when truthy, else none; Carrier.RequestAddressFields states its use |
| Carrier.WithDefault | Amazon/MCF/Model/Carrier/AmazonFulfillment.php:389-405 | a placeholder is set only for a field the address lacks, and a present field is kept |
| Carrier.Completed | Amazon/MCF/Model/Carrier/AmazonFulfillment.php:387-411 | the copied fields completed with placeholders, or nothing without a country and a postcode or region; Carrier.AddressNonEmptyIff and Carrier.AddressFields state it |
| Carrier.AddressNonEmptyIff | Amazon/MCF/Model/Carrier/AmazonFulfillment.php:387-411 | the address is non-empty iff it has a country and a postcode or region |
| Carrier.AddressFields | Amazon/MCF/Model/Carrier/AmazonFulfillment.php:387-407 | a kept address fills only missing Name, Line1, City and State with the placeholders |
| Carrier.JapanCityIsPlaceholder | Amazon/MCF/Model/Carrier/AmazonFulfillment.php:378-380 | for JP the destination city is never copied, so a kept address has the placeholder city |
| Carrier.ShippingFee | Amazon/MCF/Model/Carrier/AmazonFulfillment.php:315-329 | calculateShippingFee: the sum of the FBAPerUnitFulfillmentFee amounts; Carrier.ShippingFeeAppend and Carrier.ShippingFeeOtherFees state it |
| Carrier.ShippingFeeAppend | Amazon/MCF/Model/Carrier/AmazonFulfillment.php:315-329 | the fee is a sum over fees: the fee of a + b is the fee of a plus the fee of b |
| Carrier.ShippingFeeOtherFees | Amazon/MCF/Model/Carrier/AmazonFulfillment.php:319 | fees other than the per-unit fee contribute nothing |
| Carrier.CalculateShippingFee | Amazon/MCF/Model/Carrier/AmazonFulfillment.php:315-329 | the loop computes the per-unit fee sum |
| Carrier.LastLatest | Amazon/MCF/Model/Carrier/AmazonFulfillment.php:294-298 | the latest arrival date kept for a preview; Carrier.LastLatestIsLast states that it is the last shipment's |
| Carrier.LastLatestIsLast | Amazon/MCF/Model/Carrier/AmazonFulfillment.php:294-298 | the date is that of the last shipment with a latest-arrival date, none iff no shipment has one |
| Carrier.LatestArrival | Amazon/MCF/Model/Carrier/AmazonFulfillment.php:294-298 | the loop finds that date |
| Carrier.PreviewRates | Amazon/MCF/Model/Carrier/AmazonFulfillment.php:279-308 | getRatesFromFulfillmentPreview: one rate per speed of a fulfillable preview, with its fee sum and arrival date; Carrier.PreviewRatesExact and Carrier.PreviewRatesDistinct state it |
| Carrier.PreviewRate | Amazon/MCF/Model/Carrier/AmazonFulfillment.php:290-303 | the fee total and last latest arrival of one fulfillable preview; Carrier.PreviewRatesExact states its use |
| Carrier.LastWithSpeed | Amazon/MCF/Model/Carrier/AmazonFulfillment.php:300-303 | a preview is the last fulfillable one with its speed; Carrier.PreviewRatesExact states that it wins |
| Carrier.PreviewRatesExact | Amazon/MCF/Model/Carrier/AmazonFulfillment.php:286-305 | a speed has a rate iff some fulfillable preview has it, and the rate is that of the last such preview |
| Carrier.PreviewRatesDistinct | Amazon/MCF/Model/Carrier/AmazonFulfillment.php:300-303 | one rate per speed |
| Carrier.GetRatesFromFulfillmentPreview | Amazon/MCF/Model/Carrier/AmazonFulfillment.php:279-308 | the loop builds the preview rates |
| Carrier.DefaultPrice | Amazon/MCF/Model/Carrier/AmazonFulfillment.php:236-247 | the configured default cost of Standard, Expedited or Priority, no default for any other speed; Carrier.WithDefaultPrices states how it is applied |
| Carrier.WithDefaultPrices | Amazon/MCF/Model/Carrier/AmazonFulfillment.php:236-247 | the same speeds in the same order, each with its speed's default price and its date kept |
| Carrier.ShippingRates | Amazon/MCF/Model/Carrier/AmazonFulfillment.php:217-270 | getShippingRates on the request and the prepared address; Carrier.ShippingRatesEmptyIff, Carrier.NoAddressDefaultOnly, Carrier.EmptyPreviewDefaultOnly and Carrier.HiddenCostsKeepSpeeds state it |
| Carrier.ShippingRatesEmptyIff | Amazon/MCF/Model/Carrier/AmazonFulfillment.php:217-270 | the rates are empty iff no cart line is an FBA-enabled shippable line |
| Carrier.StandardDefault | Amazon/MCF/Model/Carrier/AmazonFulfillment.php:233-235 | the single default Standard rate; Carrier.NoAddressDefaultOnly and Carrier.EmptyPreviewDefaultOnly state when it is used |
| Carrier.AddressRates | Amazon/MCF/Model/Carrier/AmazonFulfillment.php:225-248 | the rates for a known address: the preview's, else the default Standard rate, with default prices when costs are hidden; Carrier.EmptyPreviewDefaultOnly and Carrier.HiddenCostsKeepSpeeds state it |
| Carrier.NoAddressDefaultOnly | Amazon/MCF/Model/Carrier/AmazonFulfillment.php:251-267 | with items but no address, only the default Standard rate is offered |
| Carrier.EmptyPreviewDefaultOnly | Amazon/MCF/Model/Carrier/AmazonFulfillment.php:229-235 | an address with no preview rates gives only the default Standard rate |
| Carrier.HiddenCostsKeepSpeeds | Amazon/MCF/Model/Carrier/AmazonFulfillment.php:236-247 | when costs are hidden, the preview's speeds are kept and priced at their defaults, and no speed is added |
| Carrier.MethodFor | Amazon/MCF/Model/Carrier/AmazonFulfillment.php:165-183 | one rate method from a titled rate; Carrier.RateMethods states its fields |
| Carrier.RateMethods | Amazon/MCF/Model/Carrier/AmazonFulfillment.php:163-184 | one method per rate, code = lower-cased title, price = cost = the rate's price, and a date title only when dates are shown and the rate has one |
| Carrier.AmazonFulfillment.constructor | Amazon/MCF/Model/Carrier/AmazonFulfillment.php:119-140 | nothing is prepared yet |
| Carrier.AmazonFulfillment.PrepareShippingRequest | Amazon/MCF/Model/Carrier/AmazonFulfillment.php:354-412 | stores the request and its shipping address |
| Carrier.CopyRequestAddress | Amazon/MCF/Model/Carrier/AmazonFulfillment.php:357-384 | the fields copied from the request, with the store's country as fallback |
| Carrier.CompleteAddress | Amazon/MCF/Model/Carrier/AmazonFulfillment.php:387-411 | a destination with a country and a postal code or region gets placeholders for missing fields; any other becomes empty |
| Carrier.AmazonFulfillment.GetShippingRates | Amazon/MCF/Model/Carrier/AmazonFulfillment.php:217-270 | the rates for the request and the prepared address |
| Carrier.AmazonFulfillment.CollectRates | Amazon/MCF/Model/Carrier/AmazonFulfillment.php:148-194 | false unless the carrier is active and the extension is enabled; otherwise the rate methods of the shipping rates |
| Carrier.BuildMethods | Amazon/MCF/Model/Carrier/AmazonFulfillment.php:163-184 | one rate method per rate, in rate order: carrier code, lowercased title, price and cost the rate's price |
| Carrier.UseDefaultPrices | Amazon/MCF/Model/Carrier/AmazonFulfillment.php:244-246 | the loop swaps in the default prices |
| Carrier.AnyFbaItem | Amazon/MCF/Model/Carrier/AmazonFulfillment.php:252-261 | the loop with break finds whether some item is FBA-enabled |
| Magento.HasFbaItem | Amazon/MCF/Model/Carrier/AmazonFulfillment.php:252-261 | some line's product is FBA-enabled; Carrier.AnyFbaItem is proved to compute it |
| ProductSkuConfig.ProductQuerySkus | Amazon/MCF/Plugin/ProductSkuConfig.php:66-70 | [sku], plus the merchant SKU iff it is truthy |
| ProductSkuConfig.AnyAsin | Amazon/MCF/Plugin/ProductSkuConfig.php:85-90 | whether some returned record carries an ASIN; ProductSkuConfig.AnyAsinIff states it in both directions |
| ProductSkuConfig.SupplyTotal | Amazon/MCF/Plugin/ProductSkuConfig.php:83-92 | the sum of the in-stock quantities of all returned records; ProductSkuConfig.SupplyTotalAppend states it |
| ProductSkuConfig.AnyAsinIff | Amazon/MCF/Plugin/ProductSkuConfig.php:83-92 | the product exists at Amazon iff some returned record has an ASIN |
| ProductSkuConfig.SupplyTotalAppend | Amazon/MCF/Plugin/ProductSkuConfig.php:83-92 | the quantity is a sum over all records, with no availability filter |
| ProductSkuConfig.KnownAtAmazon | Amazon/MCF/Plugin/ProductSkuConfig.php:81-96 | Amazon knows the product when a response came back and some record carries an ASIN; ProductSkuConfig.AfterSave writes stock exactly then |
| ProductSkuConfig.SumSupply | Amazon/MCF/Plugin/ProductSkuConfig.php:83-92 | the loop computes existence and total |
| ProductSkuConfig.AfterSave | Amazon/MCF/Plugin/ProductSkuConfig.php:61-117 | no query and no write for non-FBA products; otherwise the product's SKUs are queried; stock is written (in stock iff qty > 0) only when the product exists at Amazon, else an error names the SKU |
| ConfigPlugin.CredentialMessage | Amazon/MCF/Plugin/ConfigPlugin.php:66-77 | success gives the check's message, with the enable-carrier hint appended when the carrier is off; fail gives an error with the message unchanged |
| ConfigPlugin.AfterSave | Amazon/MCF/Plugin/ConfigPlugin.php:60-80 | no check for other sections; otherwise success iff the probe returns, with the matching text |
| FbaData.ValidParams | Amazon/MCF/Controller/Ajax/FBAData.php:123-125 | an estimate is asked for only with a non-empty parameter list, a truthy postcode and numeric product id and quantity; FbaData.DigitParamsAreValid and FbaData.Execute state its use |
| FbaData.DigitParamsAreValid | Amazon/MCF/Controller/Ajax/FBAData.php:123-125 | a truthy postcode with plain-digit pid and qty passes the parameter test, and an empty pid does not |
| FbaData.EstimateAddress | Amazon/MCF/Controller/Ajax/FBAData.php:133-140 | the store country, the given postcode and fixed placeholder City, Line1, Name and State, and no other field |
| FbaData.RequestedQuantity | Amazon/MCF/Controller/Ajax/FBAData.php:131 | a falsy qty (such as "0") becomes 1 |
| FbaData.EstimateSku | Amazon/MCF/Controller/Ajax/FBAData.php:146-150 | the merchant SKU when truthy overrides the product SKU |
| FbaData.EstimateItems | Amazon/MCF/Controller/Ajax/FBAData.php:146-159 | no item iff the chosen SKU is empty; otherwise one item with that SKU, the product id and the quantity |
| FbaData.Execute | Amazon/MCF/Controller/Ajax/FBAData.php:103-180 | a params exception gives result false; invalid params give the default "no data" reply; otherwise "Rates available." with the rows iff the estimate is non-empty |
| RatesValidator.FieldEmpty | Amazon/MCF/view/frontend/web/js/model/shipping-rates-validator.js:35 | a field is empty when missing or the empty string |
| RatesValidator.RuleErrors | Amazon/MCF/view/frontend/web/js/model/shipping-rates-validator.js:34-39 | one message per required rule with an empty field, in rule order; RatesValidator.RuleErrorsExact states it |
| RatesValidator.RuleErrorsExact | Amazon/MCF/view/frontend/web/js/model/shipping-rates-validator.js:34-39 | one message per required rule whose field is empty, and each message names such a field |
| RatesValidator.ShippingRatesValidator.constructor | Amazon/MCF/view/frontend/web/js/model/shipping-rates-validator.js:29 | the error list starts empty |
| RatesValidator.AddressAccepted | Amazon/MCF/view/frontend/web/js/model/shipping-rates-validator.js:41-46 | without pending errors an address passes, except that the origin country needs a postcode; RatesValidator.ShippingRatesValidator.Validate states it |
| RatesValidator.ShippingRatesValidator.Validate | Amazon/MCF/view/frontend/web/js/model/shipping-rates-validator.js:33-48 | errors accumulate and are never cleared; valid iff there are no errors and the address passes the country/postcode test; once an error exists every later call is false |

## Left out

- SQL queries and Magento collections: their results are given sequences of catalog rows, stores and orders, in entity-id order. MySQL's loose comparisons in the `ev.value != 1` and `IN` filters are read as plain string comparison.
- The MWS SDK, dynamic client instantiation and `require_once`: every remote call is a function parameter, and a caught exception is `Threw`.
- Key decryption: credentials are stored in plaintext.
- Logging, the admin notices raised by the service wrappers when a call throws, and verifyConfig's notice: these are side channels. Notice and message texts are modelled as datatypes that carry the listed SKUs.
- Date parsing and formatting. The incremental start time and the order timestamp are parameters. Estimate times are given as integers. A dated method title is the abstract `ByDate`.
- Region lookup in `getAmazonAddressArray`, and the country-information lookup in `getStoreCountry` (taken as the identity). The destination address of fulfilment orders is not part of the request model.
- `invoiceOrder`: its only call is commented out. Also left out: Magento's register-time quantity bookkeeping and `setIsInProcess`, modelled as an opaque register verdict that decides whether a shipment is saved.
- Races between concurrent cron runs: runs are sequential.
- Config.ScopedValue: website scope is not modelled. Magento resolves a store-scoped read store, then website, then default; here a store-scoped read goes straight from the store to the default scope, so a value set only for a website is not seen.
- InventoryStatus.MissingSkus, InventoryStatus.MissingSkusExact, InventoryStatus.CreateMissingInventoryNotifications, InventoryStatus.MissingNotices, InventoryStatus.UpdateInventoryProcessStatus, InventoryStatus.CronCurrentInventoryStatus: returned SKUs are compared with the matched Magento SKUs as plain strings, where PHP's `in_array` compares numeric strings as numbers (and a canonical-integer array key such as "123" becomes the int 123). So a returned "123" matched only by Magento SKU "0123", or "1e2" matched by "100", is listed here but not in the source.
- InventoryStatus.GetAmazonFulfilledSkus, InventoryStatus.BuildPageEntries: they use the corrected InventoryStatus.PageEntries. As written, a merchant-SKU row off the page adds an entry without a SKU; InventoryStatus.PageEntriesAsWritten and InventoryStatus.NextRowAsWritten describe it. So the offset as written also counts those entries, which this method does not.
- InventoryStatus.CronFullInventoryStatus, InventoryStatus.FullSyncPass: they use the corrected page. As written, the phantom entry's alternate SKU is also queried, and its stock is written to an entity that is not FBA-enabled. Neither is modelled.
- InventoryStatus.SyncPage, InventoryStatus.ProcessSupplyListData: they work on the corrected page, so they never see a phantom entry.
- OrderStatus.Drafts, OrderStatus.BuildShipment, OrderStatus.SaveShipment, OrderStatus.SaveShipments, OrderStatus.CreateShipment, OrderStatus.ShipmentOutcome, OrderStatus.PollOrder, OrderStatus.OrderUpdate: they use the corrected OrderStatus.ShipMatches. The SKU test as written is OrderStatus.ShipMatchesAsWritten, and OrderStatus.MerchantSkuLostAsWritten shows where the two differ.
- OrderStatus.CancelMatches, OrderStatus.ShipMatches, OrderStatus.PollOutcome: SKUs and increment ids are compared as plain strings. PHP's `in_array` and `==` compare two numeric strings as numbers, so "00123" equals "123" and "1e2" equals "100" in the source but not here.
- OrderStatus.CancelTouchesOnlyMatching, OrderStatus.CancelLines, OrderStatus.CancelFBAShipment: their "listed" means strict string membership, not PHP's loose `in_array`.
- OrderStatus.PollNeedsEchoedId: the echoed id must be the same string as the increment id, where PHP's `==` also accepts a numerically equal one.
- Magento.StockRegistry.UpdateStockItem: stock is written by entity id. `updateStockItemBySku` looks the stock item up by the SKU the caller passes. On the corrected page that is always the entity's own SKU, so the lookup by SKU is not modelled.
- OutboundService.EstimateFold: before the first shipment, the fold's time, dates and fee are PHP null. The model reads them as 0 and "". A preview without shipments reuses the previous preview's values, as in the source.
- Money is whole minor units, with no rounding and no float arithmetic. A null fee list (the `$fees &&` test) is the empty list.
- Upsert when the variable is absent: both branches write the same row.
- FbaData.Execute: `is_numeric` on qty and pid, and the quantity text sent to Amazon, go through the `quantityValue` parameter. Product loading is the `load` parameter.
- RatesValidator.ShippingRatesValidator.Validate: `utils.isEmpty` is read on strings only (a missing or empty field). The translation of the message is not modelled.
- getAllowedMethods, the UI blocks, setup scripts and the endpoint option list are not part of this model. They are static data or rendering.

## Findings

| source | as written | input that shows it | evidently intended | confidence | as-written member | corrected member |
|---|---|---|---|---|---|---|
| Amazon/MCF/Helper/Data.php:478-483 | with a store id, getEndpoint reads the packing-slip comment path as the endpoint | store 1 with packing-slip comment "Thanks!" and default endpoint `https://mws.amazonservices.com` gives endpoint "Thanks!" (Config.EndpointStoreBranchReadsPackingSlip) | read the marketplace-endpoint path at store scope | not executed | Config.GetEndpointAsWritten | Config.GetEndpoint |
| Amazon/MCF/Cron/GetOrderStatus.php:408 | the merchant-SKU test calls `getAamazonMcfMerchantSku`, a magic getter that is always null | a line for product "ABC" with merchant SKU "AMZ-1", and a package item with SellerSKU "AMZ-1": no shipment item, where the corrected match ships one (OrderStatus.MerchantSkuLostAsWritten) | compare with the product's `amazon_mcf_merchant_sku` | not executed | OrderStatus.ShipMatchesAsWritten | OrderStatus.ShipMatches |
| Amazon/MCF/Cron/GetOrderStatus.php:517-520 | `getResponseMetadata` is called on the create result before the emptiness test, so a null result (thrown create) aborts the run | an order at count 4 whose create throws never reaches `fail` (OrderStatus.ThrowingCreateNeverFailsAsWritten) | test the result first; a null result is a failed attempt | not executed | OrderStatus.ResubmitAsWritten | OrderStatus.ResubmitOutcome |
| Amazon/MCF/Cron/GetInventoryStatus.php:279-305 | the merchant-SKU query is paged on its own (LIMIT/OFFSET over a different row set), and its rows are attached to entity ids that may not be on the page | catalog [(1,"P1",FBA,no merchant SKU), (2,"P2",not FBA,"M2")] at row 0: a second entry without a SKU for entity 2 (InventoryStatus.PhantomEntryAsWritten) | attach alternate SKUs only to the entities of the page | not executed | InventoryStatus.PageEntriesAsWritten | InventoryStatus.PageEntries |
