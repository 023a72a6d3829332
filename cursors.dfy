/**
 * The sync cursors the helper (Helper/Data.php) keeps in Magento's custom
 * variable table: one row per code, holding a plain and an html value.
 * Every setter loads the row of its own code and upserts it with both
 * values set to its argument; every getter reads the plain value.
 */
module Cursors {
  import opened Wrappers
  import opened Php

  const InventorySyncPage := "amazon_mcf_inventory_sync_page"
  const InventorySyncRunning := "amazon_mcf_inventory_sync_running"
  const InventorySyncToken := "amazon_mcf_inventory_sync_token"
  const OrderSyncToken := "amazon_mcf_order_sync_token"
  const OrderSyncRunning := "amazon_mcf_order_sync_running"
  const OrderSyncPage := "amazon_mcf_order_sync_page"

  /** A stored value, kept with the PHP type it was written with. */
  datatype Value = Text(s: string) | Number(n: int) | Flag(b: bool)

  predicate ValueTruthy(v: Option<Value>)
  {
    match v
    case None => false
    case Some(Text(s)) => Truthy(s)
    case Some(Number(n)) => n != 0
    case Some(Flag(b)) => b
  }

  /** One custom-variable row: its name and its html and plain values. */
  datatype Variable = Variable(name: string, html: Value, plain: Value)

  class VariableStore {
    /** Rows by code. */
    var rows: map<string, Variable>

    constructor ()
      ensures rows == map[]
    {
      rows := map[];
    }

    /** `loadByCode(code)->getValue('plain')`, None when no row exists. */
    function Plain(code: string): (v: Option<Value>)
      reads this
      ensures v.Some? <==> code in rows
      ensures v.Some? ==> v.value == rows[code].plain
    {
      if code in rows then Some(rows[code].plain) else None
    }

    /** The load-then-save shared by all setters: the row of `code` ends up holding `v` and nothing else changes. */
    method Upsert(code: string, v: Value)
      modifies this
      ensures rows == old(rows)[code := Variable(code, v, v)]
    {
      rows := rows[code := Variable(code, v, v)];
    }

    /** The stored row offset of the full inventory sync; anything but a non-negative number reads as 0. */
    function InventoryProcessRow(): (row: nat)
      reads this
      ensures Plain(InventorySyncPage).Some? && Plain(InventorySyncPage).value.Number? && Plain(InventorySyncPage).value.n >= 0
        ==> row == Plain(InventorySyncPage).value.n
    {
      match Plain(InventorySyncPage)
      case Some(Number(n)) => if n >= 0 then n else 0
      case _ => 0
    }

    method SetInventoryProcessRow(row: nat)
      modifies this
      ensures rows == old(rows)[InventorySyncPage := Variable(InventorySyncPage, Number(row), Number(row))]
      ensures InventoryProcessRow() == row
    {
      Upsert(InventorySyncPage, Number(row));
    }

    /** Whether the full sync has finished a pass (truthy) and must wait for a reset. */
    predicate InventoryProcessStatus()
      reads this
    {
      ValueTruthy(Plain(InventorySyncRunning))
    }

    method SetInventoryProcessStatus(status: bool)
      modifies this
      ensures rows == old(rows)[InventorySyncRunning := Variable(InventorySyncRunning, Flag(status), Flag(status))]
      ensures InventoryProcessStatus() == status
    {
      Upsert(InventorySyncRunning, Flag(status));
    }

    function InventoryRowCount(): (n: nat)
      ensures n == 45
    {
      45
    }

    /** The stored next token of the incremental sync; a non-text value reads as "". */
    function InventoryNextToken(): (t: string)
      reads this
      ensures Plain(InventorySyncToken).Some? && Plain(InventorySyncToken).value.Text? ==> t == Plain(InventorySyncToken).value.s
      ensures !(Plain(InventorySyncToken).Some? && Plain(InventorySyncToken).value.Text?) ==> t == ""
    {
      match Plain(InventorySyncToken)
      case Some(Text(s)) => s
      case _ => ""
    }

    method SetInventoryNextToken(token: string)
      modifies this
      ensures rows == old(rows)[InventorySyncToken := Variable(InventorySyncToken, Text(token), Text(token))]
      ensures InventoryNextToken() == token
    {
      Upsert(InventorySyncToken, Text(token));
    }

    /** The stored next token of the order sync; None when no row exists. */
    function OrderNextToken(): (v: Option<Value>)
      reads this
      ensures v.Some? <==> OrderSyncToken in rows
      ensures v.Some? ==> v.value == rows[OrderSyncToken].plain
    {
      Plain(OrderSyncToken)
    }

    method SetOrderNextToken(token: string)
      modifies this
      ensures rows == old(rows)[OrderSyncToken := Variable(OrderSyncToken, Text(token), Text(token))]
      ensures OrderNextToken() == Some(Text(token))
    {
      Upsert(OrderSyncToken, Text(token));
    }

    /** The stored running value of the order sync; None when no row exists. */
    function OrderProcessRunning(): (v: Option<Value>)
      reads this
      ensures v.Some? <==> OrderSyncRunning in rows
      ensures v.Some? ==> v.value == rows[OrderSyncRunning].plain
    {
      Plain(OrderSyncRunning)
    }

    method SetOrderProcessRunning(status: string)
      modifies this
      ensures rows == old(rows)[OrderSyncRunning := Variable(OrderSyncRunning, Text(status), Text(status))]
      ensures OrderProcessRunning() == Some(Text(status))
    {
      Upsert(OrderSyncRunning, Text(status));
    }

    /** The stored order page, with an empty or falsy value read as page 1. */
    function OrderProcessPage(): (p: Value)
      reads this
      ensures !ValueTruthy(Plain(OrderSyncPage)) ==> p == Number(1)
      ensures ValueTruthy(Plain(OrderSyncPage)) ==> Some(p) == Plain(OrderSyncPage)
      ensures ValueTruthy(Some(p))
    {
      if ValueTruthy(Plain(OrderSyncPage)) then Plain(OrderSyncPage).value else Number(1)
    }

    method SetOrderProcessPage(page: int)
      modifies this
      ensures rows == old(rows)[OrderSyncPage := Variable(OrderSyncPage, Number(page), Number(page))]
      ensures page != 0 ==> OrderProcessPage() == Number(page)
      ensures page == 0 ==> OrderProcessPage() == Number(1)
    {
      Upsert(OrderSyncPage, Number(page));
    }
  }

  /** The six cursor codes are distinct, so each setter leaves the other five cursors as they were. */
  lemma CursorCodesDistinct()
    ensures |{InventorySyncPage, InventorySyncRunning, InventorySyncToken, OrderSyncToken, OrderSyncRunning, OrderSyncPage}| == 6
  {
  }
}
