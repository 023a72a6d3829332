/**
 * The admin "synchronize inventory" action
 * (Controller/Adminhtml/System/Config/AmazonSynchronize.php): flags the
 * full inventory sync to start over from the first row.
 */
module AdminSync {
  import opened Cursors

  const SyncMessage :=
    "Inventory Synchronization has been flagged to begin running each inventory \n        cron job until completed."

  /** The JSON reply of the action. */
  datatype SyncResponse = SyncResponse(success: bool, responseMessage: string)

  /**
   * AmazonSynchronize::execute: clear the done flag, rewind the row
   * offset, and report success; no other cursor changes.
   */
  method Synchronize(store: VariableStore) returns (response: SyncResponse)
    modifies store
    ensures store.rows == old(store.rows)
      [InventorySyncRunning := Variable(InventorySyncRunning, Flag(false), Flag(false))]
      [InventorySyncPage := Variable(InventorySyncPage, Number(0), Number(0))]
    ensures !store.InventoryProcessStatus() && store.InventoryProcessRow() == 0
    ensures response == SyncResponse(true, SyncMessage)
  {
    store.SetInventoryProcessStatus(false);
    store.SetInventoryProcessRow(0);
    response := SyncResponse(true, SyncMessage);
  }
}
