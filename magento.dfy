/**
 * The Magento entities the plugin reads and updates: products, order
 * lines, orders, the stock registry, the admin notifier and the catalog
 * rows its queries return.
 */
module Magento {
  import opened Wrappers

  /** A product's SKU, its `amazon_mcf_merchant_sku` ("" when unset) and its `amazon_mcf_asin_enabled` flag. */
  datatype Product = Product(sku: string, merchantSku: string, asinEnabled: bool)

  /**
   * An order or quote line. `canShip` is Magento's own verdict for the
   * line; quantities are whole units.
   */
  datatype LineItem = LineItem(
    product: Product,
    sku: string,
    qtyOrdered: int,
    qtyCanceled: int,
    qtyToShip: int,
    isVirtual: bool,
    canShip: bool,
    quoteId: string,
    quoteItemId: string)

  /** Whether some line's product is enabled for Amazon fulfilment. */
  predicate HasFbaItem(lines: seq<LineItem>)
  {
    exists j :: 0 <= j < |lines| && lines[j].product.asinEnabled
  }

  /** A shipment line: which order line it ships and how many units. */
  datatype ShipmentItem = ShipmentItem(lineIndex: nat, qty: int)

  datatype Track = Track(carrierCode: string, title: string, number: int)

  /** A saved shipment for one Amazon package. */
  datatype Shipment = Shipment(packageNumber: int, items: seq<ShipmentItem>, track: Option<Track>)

  /** An order status-history comment; the plugin only writes the "items cannot be fulfilled" one. */
  datatype StatusComment = UnfulfillableItems(skus: seq<string>)

  /** Everything about an order the plugin can change. */
  datatype OrderRecord = OrderRecord(
    fulfilledByAmazon: bool,
    amazonOrderStatus: string,
    submissionCount: int,
    lines: seq<LineItem>,
    comments: seq<StatusComment>,
    shipments: seq<Shipment>)

  /**
   * A sales order. The constant fields are read but never written by the
   * plugin; `canCancel` and `canShip` are Magento's verdicts for the order
   * as a whole.
   */
  class Order {
    const incrementId: string
    const storeId: nat
    const state: string
    const shippingMethod: string
    const customerEmail: string
    const shippingAddress: map<string, string>
    const canCancel: bool
    const canShip: bool
    const skipAmazonCancel: bool
    var fulfilledByAmazon: bool
    var amazonOrderStatus: string
    var submissionCount: int
    var lines: seq<LineItem>
    var comments: seq<StatusComment>
    var shipments: seq<Shipment>

    constructor (incrementId: string, storeId: nat, state: string, shippingMethod: string, customerEmail: string,
                 shippingAddress: map<string, string>, canCancel: bool, canShip: bool, skipAmazonCancel: bool,
                 lines: seq<LineItem>)
      ensures this.incrementId == incrementId && this.storeId == storeId && this.state == state
      ensures this.shippingMethod == shippingMethod && this.customerEmail == customerEmail
      ensures this.shippingAddress == shippingAddress && this.canCancel == canCancel && this.canShip == canShip
      ensures this.skipAmazonCancel == skipAmazonCancel
      ensures Snapshot() == OrderRecord(false, "", 0, lines, [], [])
    {
      this.incrementId := incrementId;
      this.storeId := storeId;
      this.state := state;
      this.shippingMethod := shippingMethod;
      this.customerEmail := customerEmail;
      this.shippingAddress := shippingAddress;
      this.canCancel := canCancel;
      this.canShip := canShip;
      this.skipAmazonCancel := skipAmazonCancel;
      fulfilledByAmazon := false;
      amazonOrderStatus := "";
      submissionCount := 0;
      this.lines := lines;
      comments := [];
      shipments := [];
    }

    function Snapshot(): OrderRecord
      reads this
    {
      OrderRecord(fulfilledByAmazon, amazonOrderStatus, submissionCount, lines, comments, shipments)
    }
  }

  datatype StockItem = StockItem(qty: int, isInStock: bool)

  /** An empty stock item, which is what the registry hands out for a product that has none. */
  const EmptyStockItem := StockItem(0, false)

  /** The stock item of an entity, an empty one when it has none. */
  function StockOf(items: map<int, StockItem>, entityId: int): StockItem
  {
    if entityId in items then items[entityId] else EmptyStockItem
  }

  /** A stock item set to a quantity, in stock exactly when the quantity is positive. */
  function Restocked(s: StockItem, qty: int): (r: StockItem)
    ensures r.qty == qty && (r.isInStock <==> qty > 0)
  {
    s.(qty := qty, isInStock := qty > 0)
  }

  /** Stock items by product entity id. */
  class StockRegistry {
    var items: map<int, StockItem>

    constructor ()
      ensures items == map[]
    {
      items := map[];
    }

    /** `getStockItem(id)`. */
    function StockItemOf(entityId: int): (s: StockItem)
      reads this
      ensures s == StockOf(items, entityId)
    {
      if entityId in items then items[entityId] else EmptyStockItem
    }

    /** `updateStockItemBySku`, keyed by the entity whose SKU is passed. */
    method UpdateStockItem(entityId: int, item: StockItem)
      modifies this
      ensures items == old(items)[entityId := item]
    {
      items := items[entityId := item];
    }
  }

  /** The admin notices the plugin raises, each with the SKUs it lists. */
  datatype Notice =
    | InventoryMismatch(skus: seq<string>)
    | InventoryAllMatched
    | MissingCatalogProducts(skus: seq<string>)

  /** The admin notifier pool, as the list of notices raised so far. */
  class Notifier {
    var notices: seq<Notice>

    constructor ()
      ensures notices == []
    {
      notices := [];
    }

    method AddNotice(n: Notice)
      modifies this
      ensures notices == old(notices) + [n]
    {
      notices := notices + [n];
    }
  }

  /**
   * A catalog row as the plugin's queries see it: entity id, SKU, the FBA
   * flag and the merchant-SKU attribute (None when the attribute row is
   * missing). The catalog is given in entity-id order.
   */
  datatype CatalogProduct = CatalogProduct(entityId: int, sku: string, fbaEnabled: bool, merchantSku: Option<string>)

  /** A sales store: its id and whether it is active. */
  datatype Store = Store(id: nat, isActive: bool)
}
