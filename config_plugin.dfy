/**
 * The configuration-save plugin (Plugin/ConfigPlugin.php): saving the
 * plugin's own section checks the credentials and shows the outcome.
 */
module ConfigPlugin {
  import opened Wrappers
  import opened Config
  import opened InventoryService

  const Section := "amazon_fba_connect"

  /** The hint appended when the credentials work but the FBA shipping method is off. */
  const EnableCarrierHint :=
    "To enable Amazon Multi-Channel Fulfillment shipping speeds and rates for your customers at cart & checkout, please enable the FBA Shipping method in Sales > Shipping Methods"

  datatype AdminMessage = SuccessMessage(text: string) | ErrorMessage(text: string)

  /** The message for a credential check's result. */
  function CredentialMessage(check: CredentialCheck, carrierEnabled: bool): (m: AdminMessage)
    ensures check.result == "success" && carrierEnabled ==> m == SuccessMessage(check.message)
    ensures check.result == "success" && !carrierEnabled ==> m == SuccessMessage(check.message + " " + EnableCarrierHint)
    ensures check.result != "success" ==> m == ErrorMessage(check.message)
  {
    var message := if check.result == "success" && !carrierEnabled then check.message + " " + EnableCarrierHint else check.message;
    if check.result == "success" then SuccessMessage(message) else ErrorMessage(message)
  }

  /**
   * afterSave: None (no credential check) for any other section; for the
   * plugin's section a success message exactly when the check call
   * returns, with the enable-carrier hint when the carrier is off, and
   * otherwise an error carrying the check's message unchanged.
   * `startTime` is the check's start time (the caller's clock minus one
   * day).
   */
  function AfterSave(c: ScopeConfig, section: string, storeId: nat, startTime: string, client: SupplyClient): (r: Option<AdminMessage>)
    ensures section != Section ==> r == None
    ensures section == Section ==> r.Some? && (r.value.SuccessMessage? <==> client(CredentialsRequest(c, startTime)).Returned?)
    ensures section == Section && r.value.SuccessMessage? ==>
      r.value.text == (if AmazonCarrierEnabled(c, storeId) then CredentialsValidMessage else CredentialsValidMessage + " " + EnableCarrierHint)
    ensures section == Section && r.value.ErrorMessage? ==>
      r.value.text == CheckCredentials(c, startTime, client).message == CredentialsInvalidMessage
  {
    if section == Section
    then Some(CredentialMessage(CheckCredentials(c, startTime, client), AmazonCarrierEnabled(c, storeId)))
    else None
  }
}
