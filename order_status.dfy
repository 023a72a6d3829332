/**
 * The order-status cron (Cron/GetOrderStatus.php): polling Amazon for
 * the status of submitted orders, cancelling lines Amazon cannot fulfil,
 * creating one shipment per Amazon package, and resubmitting orders whose
 * submission failed.
 */
module OrderStatus {
  import opened Wrappers
  import opened Php
  import opened OrderedMaps
  import opened Config
  import opened Magento
  import opened Conversion
  import opened OutboundService

  /** The page size of the resubmission query. */
  const ResubmitPageSize: nat := 20
  /** The attempt number at which resubmission gives up. */
  const ResubmitRetries: int := 5

  // ---------------------------------------------------------------- store selection

  predicate StoreEnabled(c: ScopeConfig, s: Store)
  {
    s.isActive && IsEnabled(c, s.id)
  }

  /** The ids of the active, enabled stores, in store order. */
  function EnabledStoreIds(c: ScopeConfig, stores: seq<Store>): seq<nat>
  {
    if stores == [] then []
    else
      var s := stores[|stores| - 1];
      EnabledStoreIds(c, stores[..|stores| - 1]) + (if StoreEnabled(c, s) then [s.id] else [])
  }

  lemma {:induction false} EnabledStoreIdsExact(c: ScopeConfig, stores: seq<Store>, id: nat)
    ensures id in EnabledStoreIds(c, stores) <==> exists j :: 0 <= j < |stores| && StoreEnabled(c, stores[j]) && stores[j].id == id
  {
    if stores != [] {
      var init := stores[..|stores| - 1];
      EnabledStoreIdsExact(c, init, id);
      if exists j :: 0 <= j < |stores| && StoreEnabled(c, stores[j]) && stores[j].id == id {
        var j :| 0 <= j < |stores| && StoreEnabled(c, stores[j]) && stores[j].id == id;
        if j < |init| {
          assert init[j] == stores[j];
        }
      }
      if id in EnabledStoreIds(c, init) {
        var j :| 0 <= j < |init| && StoreEnabled(c, init[j]) && init[j].id == id;
        assert stores[j] == init[j];
      }
    }
  }

  /** The store loop at the head of both cron entry points. */
  method CollectEnabledStores(c: ScopeConfig, stores: seq<Store>) returns (ids: seq<nat>)
    ensures ids == EnabledStoreIds(c, stores)
  {
    ids := [];
    var i := 0;
    while i < |stores|
      invariant 0 <= i <= |stores|
      invariant ids == EnabledStoreIds(c, stores[..i])
    {
      assert stores[..i + 1][..i] == stores[..i];
      if stores[i].isActive && IsEnabled(c, stores[i].id) {
        ids := ids + [stores[i].id];
      }
      i := i + 1;
    }
    assert stores[..i] == stores;
  }

  /** The order collection of orderUpdate: enabled store, open state, FBA, and an in-flight Amazon status. */
  predicate Pollable(enabled: seq<nat>, o: Order, r: OrderRecord)
  {
    o.storeId in enabled && o.state in {"new", "processing"} && r.fulfilledByAmazon
    && r.amazonOrderStatus in {StatusReceived, StatusPlanning, StatusProcessing}
  }

  // ---------------------------------------------------------------- line cancellation

  /** A line whose product SKU or merchant SKU Amazon listed. */
  predicate CancelMatches(line: LineItem, skus: seq<string>)
  {
    line.product.sku in skus || line.product.merchantSku in skus
  }

  /** A listed line that is not yet fully cancelled. */
  predicate Cancellable(line: LineItem, skus: seq<string>)
  {
    CancelMatches(line, skus) && line.qtyOrdered != line.qtyCanceled
  }

  function CancelLine(line: LineItem, skus: seq<string>): LineItem
  {
    if Cancellable(line, skus) then line.(qtyCanceled := line.qtyOrdered) else line
  }

  function CancelledLines(lines: seq<LineItem>, skus: seq<string>): (r: seq<LineItem>)
    ensures |r| == |lines|
  {
    if lines == [] then []
    else CancelledLines(lines[..|lines| - 1], skus) + [CancelLine(lines[|lines| - 1], skus)]
  }

  /** The SKUs of the lines cancelled, in line order. */
  function CancelledSkus(lines: seq<LineItem>, skus: seq<string>): seq<string>
  {
    if lines == [] then []
    else
      var line := lines[|lines| - 1];
      CancelledSkus(lines[..|lines| - 1], skus) + (if Cancellable(line, skus) then [line.product.sku] else [])
  }

  /** cancelFBAShipment's effect on an order's record. */
  function CancelOutcome(r: OrderRecord, canCancel: bool, skus: seq<string>): OrderRecord
  {
    if !canCancel || skus == [] then r
    else
      var cancelled := CancelledSkus(r.lines, skus);
      r.(lines := CancelledLines(r.lines, skus),
         comments := if cancelled == [] then r.comments else r.comments + [UnfulfillableItems(cancelled)])
  }

  /**
   * Cancellation touches only the listed lines that are not yet fully
   * cancelled, and sets their cancelled quantity to the ordered quantity;
   * every other line, and every other field of a touched line, is kept.
   */
  lemma {:induction false} CancelTouchesOnlyMatching(lines: seq<LineItem>, skus: seq<string>)
    ensures forall i :: 0 <= i < |lines| && Cancellable(lines[i], skus) ==>
      CancelledLines(lines, skus)[i] == lines[i].(qtyCanceled := lines[i].qtyOrdered)
    ensures forall i :: 0 <= i < |lines| && !Cancellable(lines[i], skus) ==> CancelledLines(lines, skus)[i] == lines[i]
  {
    if lines != [] {
      var init := lines[..|lines| - 1];
      CancelTouchesOnlyMatching(init, skus);
      forall i | 0 <= i < |init| ensures CancelledLines(lines, skus)[i] == CancelledLines(init, skus)[i] && lines[i] == init[i] {
      }
    }
  }

  /** A cancellation comment is written exactly when some line was cancelled. */
  lemma {:induction false} CancelledSkusEmptyIff(lines: seq<LineItem>, skus: seq<string>)
    ensures CancelledSkus(lines, skus) == [] <==> forall i :: 0 <= i < |lines| ==> !Cancellable(lines[i], skus)
  {
    if lines != [] {
      var init := lines[..|lines| - 1];
      CancelledSkusEmptyIff(init, skus);
      if CancelledSkus(lines, skus) == [] {
        forall i | 0 <= i < |lines| ensures !Cancellable(lines[i], skus) {
          if i < |init| {
            assert lines[i] == init[i];
          }
        }
      }
    }
  }

  /** The comment lists the product SKU of every cancelled line and nothing else. */
  lemma {:induction false} CancelledSkusExact(lines: seq<LineItem>, skus: seq<string>, sku: string)
    ensures sku in CancelledSkus(lines, skus) <==>
      exists i :: 0 <= i < |lines| && Cancellable(lines[i], skus) && lines[i].product.sku == sku
  {
    if lines != [] {
      var init := lines[..|lines| - 1];
      CancelledSkusExact(init, skus, sku);
      if exists i :: 0 <= i < |lines| && Cancellable(lines[i], skus) && lines[i].product.sku == sku {
        var i :| 0 <= i < |lines| && Cancellable(lines[i], skus) && lines[i].product.sku == sku;
        if i < |init| {
          assert init[i] == lines[i];
        }
      }
      if sku in CancelledSkus(init, skus) {
        var i :| 0 <= i < |init| && Cancellable(init[i], skus) && init[i].product.sku == sku;
        assert lines[i] == init[i];
      }
    }
  }

  /** Cancelling the same list twice changes nothing the second time, and writes no second comment. */
  lemma {:induction false} CancelIdempotent(lines: seq<LineItem>, skus: seq<string>)
    ensures CancelledLines(CancelledLines(lines, skus), skus) == CancelledLines(lines, skus)
    ensures CancelledSkus(CancelledLines(lines, skus), skus) == []
  {
    if lines != [] {
      var init := lines[..|lines| - 1];
      CancelIdempotent(init, skus);
      var once := CancelledLines(lines, skus);
      assert once[..|once| - 1] == CancelledLines(init, skus);
    }
  }

  lemma CancelOutcomeIdempotent(r: OrderRecord, canCancel: bool, skus: seq<string>)
    ensures CancelOutcome(CancelOutcome(r, canCancel, skus), canCancel, skus) == CancelOutcome(r, canCancel, skus)
  {
    CancelIdempotent(r.lines, skus);
  }

  /** One pass of the cancellation loop, on the line at position `i`. */
  lemma CancelStep(lines: seq<LineItem>, skus: seq<string>, i: nat)
    requires i < |lines|
    ensures (CancelledLines(lines[..i], skus) + lines[i..])[i := CancelLine(lines[i], skus)]
      == CancelledLines(lines[..i + 1], skus) + lines[i + 1..]
    ensures CancelledSkus(lines[..i + 1], skus) ==
      CancelledSkus(lines[..i], skus) + (if Cancellable(lines[i], skus) then [lines[i].product.sku] else [])
  {
    assert lines[..i + 1][..i] == lines[..i];
  }

  /**
   * cancelFBAShipment: the listed, not yet cancelled lines are cancelled
   * in place, one at a time, and their SKUs go into one comment.
   */
  method CancelFBAShipment(order: Order, result: FulfillmentOrderResult)
    modifies order
    ensures order.Snapshot() == CancelOutcome(old(order.Snapshot()), order.canCancel, result.itemSkus)
  {
    if order.canCancel {
      var skus := result.itemSkus;
      if skus != [] {
        var canceled := CancelLines(order, skus);
        if canceled != [] {
          order.comments := order.comments + [UnfulfillableItems(canceled)];
        }
      }
    }
  }

  /** The loop of cancelFBAShipment: each listed, not yet cancelled line is cancelled in place. */
  method CancelLines(order: Order, skus: seq<string>) returns (canceled: seq<string>)
    modifies order`lines
    ensures order.lines == CancelledLines(old(order.lines), skus)
    ensures canceled == CancelledSkus(old(order.lines), skus)
  {
    canceled := [];
    ghost var lines0 := order.lines;
    var i := 0;
    while i < |order.lines|
      invariant 0 <= i <= |lines0| == |order.lines|
      invariant order.lines == CancelledLines(lines0[..i], skus) + lines0[i..]
      invariant canceled == CancelledSkus(lines0[..i], skus)
    {
      CancelStep(lines0, skus, i);
      var item := order.lines[i];
      assert item == lines0[i];
      if (item.product.sku in skus || item.product.merchantSku in skus) && item.qtyOrdered != item.qtyCanceled {
        order.lines := order.lines[i := item.(qtyCanceled := item.qtyOrdered)];
        canceled := canceled + [item.product.sku];
      } else {
        assert order.lines[i := CancelLine(lines0[i], skus)] == order.lines;
      }
      i := i + 1;
    }
    assert lines0[..i] == lines0;
    assert lines0[i..] == [];
  }

  // ---------------------------------------------------------------- shipments

  /** The per-package entry of createShipment's `$shipments`: the (SKU, quantity) items and the tracking info. */
  datatype PackageGroup = PackageGroup(entries: seq<(string, int)>, tracking: Option<CarrierInfo>)

  type PackageGroups = OrderedMap<int, PackageGroup>

  /** Every shipped item of every Amazon shipment, in order. */
  function AllShipmentItems(ships: seq<FulfillmentShipment>): seq<ShipmentItemRecord>
  {
    if ships == [] then [] else AllShipmentItems(ships[..|ships| - 1]) + ships[|ships| - 1].items
  }

  /** getPackagesFromFulfillmentOrder's result: every package of every shipment, in order. */
  function AllPackages(ships: seq<FulfillmentShipment>): seq<ShipmentPackage>
  {
    if ships == [] then [] else AllPackages(ships[..|ships| - 1]) + ships[|ships| - 1].packages
  }

  /** A package is collected exactly when some shipment of the order carries it. */
  lemma {:induction false} AllPackagesExact(ships: seq<FulfillmentShipment>, p: ShipmentPackage)
    ensures p in AllPackages(ships) <==> exists i :: 0 <= i < |ships| && p in ships[i].packages
  {
    if ships != [] {
      var init := ships[..|ships| - 1];
      AllPackagesExact(init, p);
      if exists i :: 0 <= i < |init| && p in init[i].packages {
        var i :| 0 <= i < |init| && p in init[i].packages;
        assert ships[i] == init[i];
      }
      if exists i :: 0 <= i < |ships| && p in ships[i].packages {
        var i :| 0 <= i < |ships| && p in ships[i].packages;
        if i < |init| {
          assert init[i] == ships[i];
        }
      }
    }
  }

  /** `$shipments[$packageNumber][] = [sku, quantity]`. */
  function AddToGroup(groups: PackageGroups, rec: ShipmentItemRecord): PackageGroups
  {
    var g := Get(groups, rec.packageNumber).GetOr(PackageGroup([], None));
    Put(groups, rec.packageNumber, g.(entries := g.entries + [(rec.sellerSku, rec.quantity)]))
  }

  lemma AddToGroupGet(groups: PackageGroups, rec: ShipmentItemRecord, packageNumber: int)
    ensures Get(AddToGroup(groups, rec), packageNumber) ==
      if packageNumber == rec.packageNumber
      then Some(Get(groups, packageNumber).GetOr(PackageGroup([], None)).(entries := Get(groups, packageNumber).GetOr(PackageGroup([], None)).entries + [(rec.sellerSku, rec.quantity)]))
      else Get(groups, packageNumber)
  {
    var g := Get(groups, rec.packageNumber).GetOr(PackageGroup([], None));
    GetPut(groups, rec.packageNumber, g.(entries := g.entries + [(rec.sellerSku, rec.quantity)]), packageNumber);
  }

  function GroupItems(recs: seq<ShipmentItemRecord>): PackageGroups
  {
    if recs == [] then [] else AddToGroup(GroupItems(recs[..|recs| - 1]), recs[|recs| - 1])
  }

  lemma GroupItemsSnoc(recs: seq<ShipmentItemRecord>, rec: ShipmentItemRecord)
    ensures GroupItems(recs + [rec]) == AddToGroup(GroupItems(recs), rec)
  {
    assert (recs + [rec])[..|recs|] == recs;
  }

  /** The (SKU, quantity) items of one package, in order. */
  function EntriesOf(recs: seq<ShipmentItemRecord>, packageNumber: int): seq<(string, int)>
  {
    if recs == [] then []
    else
      var rec := recs[|recs| - 1];
      EntriesOf(recs[..|recs| - 1], packageNumber)
        + (if rec.packageNumber == packageNumber then [(rec.sellerSku, rec.quantity)] else [])
  }

  /** No package number occurs twice among the groups. */
  lemma {:induction false} GroupItemsDistinct(recs: seq<ShipmentItemRecord>)
    ensures DistinctKeys(GroupItems(recs))
  {
    if recs != [] {
      var init := recs[..|recs| - 1];
      var rec := recs[|recs| - 1];
      GroupItemsDistinct(init);
      var g := Get(GroupItems(init), rec.packageNumber).GetOr(PackageGroup([], None));
      PutDistinct(GroupItems(init), rec.packageNumber, g.(entries := g.entries + [(rec.sellerSku, rec.quantity)]));
    }
  }

  /**
   * Grouping by package: one group per package number that occurs, with
   * exactly that package's items in order.
   */
  lemma {:induction false} GroupItemsExact(recs: seq<ShipmentItemRecord>, packageNumber: int)
    ensures Get(GroupItems(recs), packageNumber) ==
      if EntriesOf(recs, packageNumber) == [] then None else Some(PackageGroup(EntriesOf(recs, packageNumber), None))
  {
    if recs != [] {
      var init := recs[..|recs| - 1];
      var rec := recs[|recs| - 1];
      GroupItemsExact(init, packageNumber);
      AddToGroupGet(GroupItems(init), rec, packageNumber);
      assert GroupItems(recs) == AddToGroup(GroupItems(init), rec);
      var e := (rec.sellerSku, rec.quantity);
      if rec.packageNumber == packageNumber {
        assert EntriesOf(recs, packageNumber) == EntriesOf(init, packageNumber) + [e];
      } else {
        assert EntriesOf(recs, packageNumber) == EntriesOf(init, packageNumber);
      }
    }
  }

  /** The package that last carries this number, if any. */
  function LastPackage(pkgs: seq<ShipmentPackage>, packageNumber: int): Option<ShipmentPackage>
  {
    if pkgs == [] then None
    else if pkgs[|pkgs| - 1].packageNumber == packageNumber then Some(pkgs[|pkgs| - 1])
    else LastPackage(pkgs[..|pkgs| - 1], packageNumber)
  }

  function PackageCarrier(p: ShipmentPackage): CarrierInfo
  {
    CarrierInfo(CarrierCode(p.carrierCode), CarrierTitle(p.carrierCode))
  }

  /** The package loop: a package whose number has a group sets that group's tracking. */
  function AttachTracking(groups: PackageGroups, pkgs: seq<ShipmentPackage>): PackageGroups
  {
    if pkgs == [] then groups
    else
      var g := AttachTracking(groups, pkgs[..|pkgs| - 1]);
      var p := pkgs[|pkgs| - 1];
      match Get(g, p.packageNumber)
      case None => g
      case Some(group) => Put(g, p.packageNumber, group.(tracking := Some(PackageCarrier(p))))
  }

  /**
   * Tracking attaches only to packages that have items: the groups and
   * their items are kept, and a group's tracking comes from the last
   * listed package with its number.
   */
  lemma {:induction false} AttachTrackingExact(groups: PackageGroups, pkgs: seq<ShipmentPackage>, packageNumber: int)
    requires DistinctKeys(groups)
    ensures DistinctKeys(AttachTracking(groups, pkgs))
    ensures Get(AttachTracking(groups, pkgs), packageNumber).Some? <==> Get(groups, packageNumber).Some?
    ensures Get(groups, packageNumber).Some? ==>
      var g := Get(AttachTracking(groups, pkgs), packageNumber).value;
      g.entries == Get(groups, packageNumber).value.entries &&
      g.tracking == match LastPackage(pkgs, packageNumber)
        case Some(p) => Some(PackageCarrier(p))
        case None => Get(groups, packageNumber).value.tracking
  {
    if pkgs != [] {
      var init := pkgs[..|pkgs| - 1];
      var p := pkgs[|pkgs| - 1];
      AttachTrackingExact(groups, init, packageNumber);
      AttachTrackingExact(groups, init, p.packageNumber);
      var g := AttachTracking(groups, init);
      match Get(g, p.packageNumber)
      case None =>
      case Some(group) =>
        PutDistinct(g, p.packageNumber, group.(tracking := Some(PackageCarrier(p))));
        GetPut(g, p.packageNumber, group.(tracking := Some(PackageCarrier(p))), packageNumber);
    }
  }

  /** The corrected SKU test: the line's product SKU or its merchant SKU. */
  predicate ShipMatches(sellerSku: string, p: Product)
  {
    sellerSku == p.sku || sellerSku == p.merchantSku
  }

  /**
   * The SKU test as written: the second getter's misspelt name returns
   * null, and PHP's `==` makes null equal only to "".
   */
  predicate ShipMatchesAsWritten(sellerSku: string, p: Product)
  {
    sellerSku == p.sku || sellerSku == ""
  }

  predicate ShipsLine(line: LineItem, sellerSku: string, matches: (string, Product) -> bool)
  {
    matches(sellerSku, line.product) && line.qtyToShip != 0 && !line.isVirtual
  }

  /** The shipment items one order line gets from a package's entries. */
  function LineShipmentItems(index: nat, line: LineItem, entries: seq<(string, int)>, matches: (string, Product) -> bool): seq<ShipmentItem>
  {
    if entries == [] then []
    else
      var e := entries[|entries| - 1];
      LineShipmentItems(index, line, entries[..|entries| - 1], matches)
        + (if ShipsLine(line, e.0, matches) then [ShipmentItem(index, e.1)] else [])
  }

  function ShipmentItems(lines: seq<LineItem>, entries: seq<(string, int)>, matches: (string, Product) -> bool): seq<ShipmentItem>
  {
    if lines == [] then []
    else
      var n := |lines| - 1;
      ShipmentItems(lines[..n], entries, matches) + LineShipmentItems(n, lines[n], entries, matches)
  }

  lemma {:induction false} LineShipmentItemsSound(index: nat, line: LineItem, entries: seq<(string, int)>, matches: (string, Product) -> bool)
    ensures forall it :: it in LineShipmentItems(index, line, entries, matches) ==>
      it.lineIndex == index && exists e :: e in entries && ShipsLine(line, e.0, matches) && it.qty == e.1
  {
    if entries != [] {
      LineShipmentItemsSound(index, line, entries[..|entries| - 1], matches);
      assert forall e :: e in entries[..|entries| - 1] ==> e in entries;
    }
  }

  /**
   * Every shipment item ships an existing, shippable, non-virtual line
   * whose SKU matches one of the package's items, with that item's
   * quantity.
   */
  lemma {:induction false} ShipmentItemsSound(lines: seq<LineItem>, entries: seq<(string, int)>, matches: (string, Product) -> bool)
    ensures forall it :: it in ShipmentItems(lines, entries, matches) ==>
      it.lineIndex < |lines| && exists e :: e in entries && ShipsLine(lines[it.lineIndex], e.0, matches) && it.qty == e.1
  {
    if lines != [] {
      var init := lines[..|lines| - 1];
      ShipmentItemsSound(init, entries, matches);
      LineShipmentItemsSound(|lines| - 1, lines[|lines| - 1], entries, matches);
      forall it | it in ShipmentItems(init, entries, matches)
        ensures it.lineIndex < |lines| && lines[it.lineIndex] == init[it.lineIndex]
      {
      }
    }
  }

  /** A package whose items no order line matches contributes no shipment items. */
  lemma {:induction false} UnmatchedPackageShipsNothing(lines: seq<LineItem>, entries: seq<(string, int)>, matches: (string, Product) -> bool)
    requires forall i, e :: 0 <= i < |lines| && e in entries ==> !ShipsLine(lines[i], e.0, matches)
    ensures ShipmentItems(lines, entries, matches) == []
  {
    if lines != [] {
      var init := lines[..|lines| - 1];
      UnmatchedPackageShipsNothing(init, entries, matches);
      ShipmentItemsSoundEmpty(|lines| - 1, lines[|lines| - 1], entries, matches);
    }
  }

  lemma {:induction false} ShipmentItemsSoundEmpty(index: nat, line: LineItem, entries: seq<(string, int)>, matches: (string, Product) -> bool)
    requires forall e :: e in entries ==> !ShipsLine(line, e.0, matches)
    ensures LineShipmentItems(index, line, entries, matches) == []
  {
    if entries != [] {
      ShipmentItemsSoundEmpty(index, line, entries[..|entries| - 1], matches);
    }
  }

  /**
   * The misspelt getter loses merchant-SKU matches: a line whose product
   * "ABC" has merchant SKU "AMZ-1", shipped by Amazon as "AMZ-1", is left
   * out of the shipment as written and shipped once corrected.
   */
  lemma MerchantSkuLostAsWritten()
    ensures
      var line := LineItem(Product("ABC", "AMZ-1", true), "ABC", 1, 0, 1, false, true, "q1", "7");
      ShipmentItems([line], [("AMZ-1", 1)], ShipMatchesAsWritten) == [] &&
      ShipmentItems([line], [("AMZ-1", 1)], ShipMatches) == [ShipmentItem(0, 1)]
  {
    var line := LineItem(Product("ABC", "AMZ-1", true), "ABC", 1, 0, 1, false, true, "q1", "7");
    assert [line][..0] == [];
    assert [("AMZ-1", 1)][..0] == [];
  }

  function TrackFor(packageNumber: int, tracking: Option<CarrierInfo>): Option<Track>
  {
    match tracking
    case None => None
    case Some(info) => Some(Track(info.carrierCode, info.title, packageNumber))
  }

  /** The shipment drafted for one package. */
  function Draft(lines: seq<LineItem>, packageNumber: int, g: PackageGroup): Shipment
  {
    Shipment(packageNumber, ShipmentItems(lines, g.entries, ShipMatches), TrackFor(packageNumber, g.tracking))
  }

  function Drafts(lines: seq<LineItem>, groups: PackageGroups): (r: seq<Shipment>)
    ensures |r| == |groups|
  {
    if groups == [] then []
    else
      var last := groups[|groups| - 1];
      Drafts(lines, groups[..|groups| - 1]) + [Draft(lines, last.0, last.1)]
  }

  /** The drafts whose register-and-save succeeded; a failure is logged and the loop goes on. */
  function Registered(drafts: seq<Shipment>, register: Shipment -> bool): seq<Shipment>
  {
    if drafts == [] then []
    else
      var d := drafts[|drafts| - 1];
      Registered(drafts[..|drafts| - 1], register) + (if register(d) then [d] else [])
  }

  /** The groups the shipment loop walks: items grouped by package, then tracking attached. */
  function PackageGroupsOf(result: FulfillmentOrderResult): PackageGroups
  {
    AttachTracking(GroupItems(AllShipmentItems(result.shipments)), AllPackages(result.shipments))
  }

  /** createShipment's effect on an order's record. */
  function ShipmentOutcome(canShip: bool, r: OrderRecord, result: FulfillmentOrderResult, register: Shipment -> bool): OrderRecord
  {
    if !canShip then r
    else r.(shipments := r.shipments + Registered(Drafts(r.lines, PackageGroupsOf(result)), register))
  }

  /**
   * Per-shipment error isolation: the shipments saved are exactly the
   * drafts that registered, in package order, whichever others failed.
   */
  lemma {:induction false} RegisteredExact(drafts: seq<Shipment>, register: Shipment -> bool, s: Shipment)
    ensures s in Registered(drafts, register) <==> s in drafts && register(s)
  {
    if drafts != [] {
      RegisteredExact(drafts[..|drafts| - 1], register, s);
      assert drafts == drafts[..|drafts| - 1] + [drafts[|drafts| - 1]];
    }
  }

  /** Each draft carries the package number of its group, and tracking exactly when the group has it. */
  lemma {:induction false} DraftsFollowGroups(lines: seq<LineItem>, groups: PackageGroups)
    ensures forall i :: 0 <= i < |groups| ==>
      Drafts(lines, groups)[i].packageNumber == groups[i].0 &&
      (Drafts(lines, groups)[i].track.Some? <==> groups[i].1.tracking.Some?) &&
      (Drafts(lines, groups)[i].track.Some? ==> Drafts(lines, groups)[i].track.value.number == groups[i].0)
  {
    if groups != [] {
      var init := groups[..|groups| - 1];
      DraftsFollowGroups(lines, init);
      assert forall i :: 0 <= i < |init| ==> Drafts(lines, groups)[i] == Drafts(lines, init)[i] && groups[i] == init[i];
    }
  }

  /** With no shipped items there are no groups and so no shipments. */
  lemma NoItemsNoShipments(canShip: bool, r: OrderRecord, result: FulfillmentOrderResult, register: Shipment -> bool)
    requires AllShipmentItems(result.shipments) == []
    ensures ShipmentOutcome(canShip, r, result, register) == r
  {
    assert GroupItems([]) == [];
    AttachTrackingEmpty(AllPackages(result.shipments));
  }

  lemma {:induction false} AttachTrackingEmpty(pkgs: seq<ShipmentPackage>)
    ensures AttachTracking([], pkgs) == []
  {
    if pkgs != [] {
      AttachTrackingEmpty(pkgs[..|pkgs| - 1]);
    }
  }

  /** The grouping loop over every shipment's items. */
  method GroupShipmentItems(ships: seq<FulfillmentShipment>) returns (groups: PackageGroups)
    ensures groups == GroupItems(AllShipmentItems(ships))
  {
    groups := [];
    var i := 0;
    while i < |ships|
      invariant 0 <= i <= |ships|
      invariant groups == GroupItems(AllShipmentItems(ships[..i]))
    {
      assert ships[..i + 1][..i] == ships[..i];
      var items := ships[i].items;
      ghost var before := AllShipmentItems(ships[..i]);
      groups := GroupMoreItems(groups, before, items);
      assert AllShipmentItems(ships[..i + 1]) == before + items;
      i := i + 1;
    }
    assert ships[..i] == ships;
  }

  /** The inner grouping loop over one shipment's items, continuing the groups of the items before it. */
  method GroupMoreItems(groups0: PackageGroups, ghost before: seq<ShipmentItemRecord>, items: seq<ShipmentItemRecord>)
    returns (groups: PackageGroups)
    requires groups0 == GroupItems(before)
    ensures groups == GroupItems(before + items)
  {
    groups := groups0;
    assert before + items[..0] == before;
    var j := 0;
    while j < |items|
      invariant 0 <= j <= |items|
      invariant groups == GroupItems(before + items[..j])
    {
      ghost var prev := groups;
      var details := items[j];
      var g := Get(groups, details.packageNumber).GetOr(PackageGroup([], None));
      groups := Put(groups, details.packageNumber, g.(entries := g.entries + [(details.sellerSku, details.quantity)]));
      assert groups == AddToGroup(prev, details);
      assert before + items[..j + 1] == (before + items[..j]) + [details];
      GroupItemsSnoc(before + items[..j], details);
      j := j + 1;
    }
    assert items[..j] == items;
  }

  /** getPackagesFromFulfillmentOrder. */
  method GetPackagesFromFulfillmentOrder(result: FulfillmentOrderResult) returns (packages: seq<ShipmentPackage>)
    ensures packages == AllPackages(result.shipments)
  {
    packages := [];
    var ships := result.shipments;
    var i := 0;
    while i < |ships|
      invariant 0 <= i <= |ships|
      invariant packages == AllPackages(ships[..i])
    {
      assert ships[..i + 1][..i] == ships[..i];
      packages := packages + ships[i].packages;
      i := i + 1;
    }
    assert ships[..i] == ships;
  }

  /** The tracking loop over the packages. */
  method AttachPackageTracking(groups0: PackageGroups, packages: seq<ShipmentPackage>) returns (groups: PackageGroups)
    ensures groups == AttachTracking(groups0, packages)
  {
    groups := groups0;
    var i := 0;
    while i < |packages|
      invariant 0 <= i <= |packages|
      invariant groups == AttachTracking(groups0, packages[..i])
    {
      assert packages[..i + 1][..i] == packages[..i];
      var p := packages[i];
      var found := Get(groups, p.packageNumber);
      if found.Some? {
        groups := Put(groups, p.packageNumber, found.value.(tracking := Some(CarrierInfo(CarrierCode(p.carrierCode), CarrierTitle(p.carrierCode)))));
      }
      i := i + 1;
    }
    assert packages[..i] == packages;
  }

  /** The nested item loops that fill one package's shipment. */
  method BuildShipment(lines: seq<LineItem>, packageNumber: int, g: PackageGroup) returns (shipment: Shipment)
    ensures shipment == Draft(lines, packageNumber, g)
  {
    var items: seq<ShipmentItem> := [];
    var i := 0;
    while i < |lines|
      invariant 0 <= i <= |lines|
      invariant items == ShipmentItems(lines[..i], g.entries, ShipMatches)
    {
      assert lines[..i + 1][..i] == lines[..i];
      var line := lines[i];
      var j := 0;
      while j < |g.entries|
        invariant 0 <= j <= |g.entries|
        invariant items == ShipmentItems(lines[..i], g.entries, ShipMatches) + LineShipmentItems(i, line, g.entries[..j], ShipMatches)
      {
        assert g.entries[..j + 1][..j] == g.entries[..j];
        var e := g.entries[j];
        if (e.0 == line.product.sku || e.0 == line.product.merchantSku) && line.qtyToShip != 0 && !line.isVirtual {
          items := items + [ShipmentItem(i, e.1)];
        }
        j := j + 1;
      }
      assert g.entries[..j] == g.entries;
      i := i + 1;
    }
    assert lines[..i] == lines;
    var track: Option<Track> := None;
    if g.tracking.Some? {
      track := Some(Track(g.tracking.value.carrierCode, g.tracking.value.title, packageNumber));
    }
    shipment := Shipment(packageNumber, items, track);
  }

  /** One pass of the shipment loop, on the group at position `i`. */
  lemma ShipmentStep(saved: seq<Shipment>, lines: seq<LineItem>, groups: PackageGroups, i: nat, register: Shipment -> bool)
    requires i < |groups|
    ensures Registered(Drafts(lines, groups[..i + 1]), register) ==
      Registered(Drafts(lines, groups[..i]), register)
        + (if register(Draft(lines, groups[i].0, groups[i].1)) then [Draft(lines, groups[i].0, groups[i].1)] else [])
    ensures saved + Registered(Drafts(lines, groups[..i + 1]), register) ==
      (saved + Registered(Drafts(lines, groups[..i]), register))
        + (if register(Draft(lines, groups[i].0, groups[i].1)) then [Draft(lines, groups[i].0, groups[i].1)] else [])
  {
    assert groups[..i + 1][..i] == groups[..i];
    var d := Drafts(lines, groups[..i + 1]);
    assert d == Drafts(lines, groups[..i]) + [Draft(lines, groups[i].0, groups[i].1)];
    assert d[..|d| - 1] == Drafts(lines, groups[..i]);
  }

  /** One package: build its shipment and save it on the order if it registers. */
  method SaveShipment(order: Order, lines: seq<LineItem>, packageNumber: int, g: PackageGroup, register: Shipment -> bool)
    modifies order`shipments
    ensures order.shipments == old(order.shipments) + (if register(Draft(lines, packageNumber, g)) then [Draft(lines, packageNumber, g)] else [])
  {
    var shipment := BuildShipment(lines, packageNumber, g);
    if register(shipment) {
      order.shipments := order.shipments + [shipment];
    }
  }

  /** The loop over the packages: build each shipment and save it if it registers. */
  method SaveShipments(order: Order, groups: PackageGroups, register: Shipment -> bool)
    modifies order
    ensures order.Snapshot() == old(order.Snapshot()).(shipments := old(order.shipments) + Registered(Drafts(old(order.lines), groups), register))
  {
    var lines := order.lines;
    var i := 0;
    while i < |groups|
      invariant 0 <= i <= |groups|
      invariant order.shipments == old(order.shipments) + Registered(Drafts(lines, groups[..i]), register)
      invariant unchanged(order`fulfilledByAmazon, order`amazonOrderStatus, order`submissionCount, order`lines, order`comments)
    {
      ShipmentStep(old(order.shipments), lines, groups, i, register);
      SaveShipment(order, lines, groups[i].0, groups[i].1, register);
      i := i + 1;
    }
    assert groups[..i] == groups;
  }

  /**
   * createShipment: one shipment per package, each registered on its own;
   * the ones that register are saved on the order.
   */
  method CreateShipment(order: Order, result: FulfillmentOrderResult, register: Shipment -> bool)
    modifies order
    ensures order.Snapshot() == ShipmentOutcome(order.canShip, old(order.Snapshot()), result, register)
  {
    if order.canShip {
      var grouped := GroupShipmentItems(result.shipments);
      if grouped != [] {
        var packages := GetPackagesFromFulfillmentOrder(result);
        var groups := AttachPackageTracking(grouped, packages);
        SaveShipments(order, groups, register);
      } else {
        AttachTrackingEmpty(AllPackages(result.shipments));
      }
    }
  }

  // ---------------------------------------------------------------- status dispatch

  predicate IsCompleteStatus(s: string)
  {
    s == "COMPLETE" || s == "COMPLETE_PARTIALLED"
  }

  predicate IsCancelStatus(s: string)
  {
    s == "INVALID" || s == "CANCELLED" || s == "UNFULFILLABLE"
  }

  /** The switch on Amazon's status for an order whose id was echoed. */
  function Dispatch(o: Order, r: OrderRecord, result: FulfillmentOrderResult, register: Shipment -> bool): OrderRecord
  {
    if IsCompleteStatus(result.status) then ShipmentOutcome(o.canShip, r, result, register)
    else if IsCancelStatus(result.status) then CancelOutcome(r, o.canCancel, result.itemSkus)
    else r
  }

  /** What polling does to one selected order. */
  function PollOutcome(c: ScopeConfig, o: Order, r: OrderRecord, client: OrderLookupClient, register: Shipment -> bool): OrderRecord
  {
    match GetFulfillmentOrder(c, o.incrementId, o.storeId, client)
    case None => r
    case Some(result) =>
      if result.displayableOrderId == o.incrementId && Truthy(result.status) then Dispatch(o, r, result, register) else r
  }

  /**
   * Polling never writes the Amazon status, the submission count or the
   * FBA flag, whatever Amazon answers.
   */
  lemma PollKeepsStatus(c: ScopeConfig, o: Order, r: OrderRecord, client: OrderLookupClient, register: Shipment -> bool)
    ensures PollOutcome(c, o, r, client, register).amazonOrderStatus == r.amazonOrderStatus
    ensures PollOutcome(c, o, r, client, register).submissionCount == r.submissionCount
    ensures PollOutcome(c, o, r, client, register).fulfilledByAmazon == r.fulfilledByAmazon
  {
  }

  /** Nothing happens unless the lookup returned and echoed this order's increment id. */
  lemma PollNeedsEchoedId(c: ScopeConfig, o: Order, r: OrderRecord, client: OrderLookupClient, register: Shipment -> bool)
    requires
      var found := GetFulfillmentOrder(c, o.incrementId, o.storeId, client);
      found.None? || found.value.displayableOrderId != o.incrementId
    ensures PollOutcome(c, o, r, client, register) == r
  {
  }

  /** A completed order only gains shipments; its lines and comments are kept. */
  lemma CompleteOnlyAddsShipments(c: ScopeConfig, o: Order, r: OrderRecord, client: OrderLookupClient, register: Shipment -> bool)
    requires
      var found := GetFulfillmentOrder(c, o.incrementId, o.storeId, client);
      found.Some? && found.value.displayableOrderId == o.incrementId && IsCompleteStatus(found.value.status)
    ensures PollOutcome(c, o, r, client, register).lines == r.lines
    ensures PollOutcome(c, o, r, client, register).comments == r.comments
    ensures |PollOutcome(c, o, r, client, register).shipments| >= |r.shipments|
  {
  }

  /** A cancelled order gains no shipments and gains at most one comment. */
  lemma CancelNeverShips(c: ScopeConfig, o: Order, r: OrderRecord, client: OrderLookupClient, register: Shipment -> bool)
    requires
      var found := GetFulfillmentOrder(c, o.incrementId, o.storeId, client);
      found.Some? && found.value.displayableOrderId == o.incrementId && IsCancelStatus(found.value.status)
    ensures PollOutcome(c, o, r, client, register).shipments == r.shipments
    ensures |PollOutcome(c, o, r, client, register).comments| <= |r.comments| + 1
  {
  }

  /** The body of orderUpdate's order loop. */
  method PollOrder(c: ScopeConfig, order: Order, client: OrderLookupClient, register: Shipment -> bool)
    modifies order
    ensures order.Snapshot() == PollOutcome(c, order, old(order.Snapshot()), client, register)
  {
    var found := GetFulfillmentOrder(c, order.incrementId, order.storeId, client);
    if found.Some? {
      var result := found.value;
      if order.incrementId == result.displayableOrderId && Truthy(result.status) {
        if result.status == "COMPLETE" || result.status == "COMPLETE_PARTIALLED" {
          CreateShipment(order, result, register);
        } else if result.status == "INVALID" || result.status == "CANCELLED" || result.status == "UNFULFILLABLE" {
          CancelFBAShipment(order, result);
        }
      }
    }
  }

  /**
   * orderUpdate: every order the collection selects is polled once; every
   * other order is left as it was. `orders` is every order in the shop.
   */
  method OrderUpdate(c: ScopeConfig, stores: seq<Store>, orders: seq<Order>, client: OrderLookupClient, register: Shipment -> bool)
    requires forall i, j :: 0 <= i < j < |orders| ==> orders[i] != orders[j]
    modifies set o | o in orders
    ensures forall k :: 0 <= k < |orders| ==>
      orders[k].Snapshot() ==
        if old(Pollable(EnabledStoreIds(c, stores), orders[k], orders[k].Snapshot()))
        then PollOutcome(c, orders[k], old(orders[k].Snapshot()), client, register)
        else old(orders[k].Snapshot())
  {
    var enabled := CollectEnabledStores(c, stores);
    var i := 0;
    while i < |orders|
      invariant 0 <= i <= |orders|
      invariant forall k :: 0 <= k < i ==>
        orders[k].Snapshot() ==
          if old(Pollable(enabled, orders[k], orders[k].Snapshot()))
          then PollOutcome(c, orders[k], old(orders[k].Snapshot()), client, register)
          else old(orders[k].Snapshot())
      invariant forall k :: i <= k < |orders| ==> orders[k].Snapshot() == old(orders[k].Snapshot())
    {
      var order := orders[i];
      assert forall k :: 0 <= k < |orders| && k != i ==> orders[k] != order;
      if Pollable(enabled, order, order.Snapshot()) {
        PollOrder(c, order, client, register);
      }
      i := i + 1;
    }
  }

  // ---------------------------------------------------------------- resubmission

  /** The resubmission collection: enabled store, open state, FBA, and status new or attempted. */
  predicate Resubmittable(enabled: seq<nat>, o: Order, r: OrderRecord)
  {
    o.storeId in enabled && o.state in {"new", "processing"} && r.fulfilledByAmazon
    && r.amazonOrderStatus in {StatusNew, StatusAttempted}
  }

  /** A create response counts when it is non-null and carries response metadata. */
  predicate Accepted(response: Option<CreateOrderResponse>)
  {
    response.Some? && response.value.responseMetadata.Some?
  }

  /** One resubmission of an order's record, with a null response taken as a failure. */
  function ResubmitOutcome(r: OrderRecord, response: Option<CreateOrderResponse>): OrderRecord
  {
    var currentAttempt := r.submissionCount + 1;
    if Accepted(response) then r.(amazonOrderStatus := StatusReceived)
    else if currentAttempt >= ResubmitRetries then r.(amazonOrderStatus := StatusFail)
    else r.(submissionCount := currentAttempt)
  }

  /**
   * The same step as written: the response's metadata is read before the
   * null test, so a null response (the create call threw) ends the run
   * with a fatal error and nothing is saved; None stands for that crash.
   */
  function ResubmitAsWritten(r: OrderRecord, response: Option<CreateOrderResponse>): Option<OrderRecord>
  {
    if response.None? then None else Some(ResubmitOutcome(r, response))
  }

  /**
   * The retry bound as written cannot be reached by an order whose
   * create call keeps throwing: its count never moves. Taking the null
   * response as a failure, an order at count 4 gives up.
   */
  lemma ThrowingCreateNeverFailsAsWritten(r: OrderRecord)
    requires r.submissionCount == 4
    ensures ResubmitAsWritten(r, None) == None
    ensures ResubmitOutcome(r, None).amazonOrderStatus == StatusFail
  {
  }

  /** Resubmission only moves the status to received or fail, and touches nothing but status and count. */
  lemma ResubmitTransitions(r: OrderRecord, response: Option<CreateOrderResponse>)
    ensures var s := ResubmitOutcome(r, response);
      s.amazonOrderStatus in {r.amazonOrderStatus, StatusReceived, StatusFail} &&
      s.lines == r.lines && s.comments == r.comments && s.shipments == r.shipments &&
      s.fulfilledByAmazon == r.fulfilledByAmazon
    ensures Accepted(response) ==> ResubmitOutcome(r, response).amazonOrderStatus == StatusReceived
    ensures !Accepted(response) ==> ResubmitOutcome(r, response).amazonOrderStatus in {r.amazonOrderStatus, StatusFail}
  {
  }

  /** A stored count never exceeds 4: the step that would write 5 writes fail instead. */
  lemma ResubmitCountBounded(r: OrderRecord, response: Option<CreateOrderResponse>)
    requires r.submissionCount < ResubmitRetries
    ensures ResubmitOutcome(r, response).submissionCount < ResubmitRetries
    ensures ResubmitOutcome(r, response).submissionCount != r.submissionCount ==>
      ResubmitOutcome(r, response).submissionCount == r.submissionCount + 1
  {
  }

  /** `n` failed resubmissions in a row. */
  function FailedRuns(r: OrderRecord, n: nat): OrderRecord
  {
    if n == 0 then r else ResubmitOutcome(FailedRuns(r, n - 1), None)
  }

  /**
   * An order that keeps failing moves from count `k` one attempt per run,
   * keeping its status, and gives up on the run after it reaches 4.
   */
  lemma {:induction false} FailedRunsCount(r: OrderRecord, n: nat)
    requires 0 <= r.submissionCount && r.submissionCount + n < ResubmitRetries
    ensures FailedRuns(r, n) == r.(submissionCount := r.submissionCount + n)
  {
    if n > 0 {
      FailedRunsCount(r, n - 1);
    }
  }

  lemma FailsWithinRetries(r: OrderRecord)
    requires 0 <= r.submissionCount < ResubmitRetries
    ensures FailedRuns(r, ResubmitRetries - r.submissionCount).amazonOrderStatus == StatusFail
    ensures forall n :: 0 <= n < ResubmitRetries - r.submissionCount ==>
      FailedRuns(r, n).amazonOrderStatus == r.amazonOrderStatus
  {
    var last: nat := ResubmitRetries - r.submissionCount - 1;
    FailedRunsCount(r, last);
    forall n | 0 <= n < ResubmitRetries - r.submissionCount
      ensures FailedRuns(r, n).amazonOrderStatus == r.amazonOrderStatus
    {
      FailedRunsCount(r, n);
    }
  }

  /** How many of the first `k` orders the resubmission collection selects. */
  function ResubmitRank(enabled: seq<nat>, orders: seq<Order>, k: nat): (n: nat)
    requires k <= |orders|
    reads set o | o in orders
    ensures n <= k
  {
    if k == 0 then 0
    else ResubmitRank(enabled, orders, k - 1) + (if Resubmittable(enabled, orders[k - 1], orders[k - 1].Snapshot()) then 1 else 0)
  }

  /** The collection's first page: the first 20 resubmittable orders. */
  predicate ResubmitChosen(enabled: seq<nat>, orders: seq<Order>, k: nat)
    requires k < |orders|
    reads set o | o in orders
  {
    Resubmittable(enabled, orders[k], orders[k].Snapshot()) && ResubmitRank(enabled, orders, k) < ResubmitPageSize
  }

  /**
   * resubmitOrdersToAmazon, with a null create response taken as a failed
   * attempt: each order on the first page of 20 is resubmitted once and
   * every other order is left as it was.
   */
  method ResubmitOrdersToAmazon(c: ScopeConfig, stores: seq<Store>, orders: seq<Order>, timestamp: string, client: CreateClient)
    requires forall i, j :: 0 <= i < j < |orders| ==> orders[i] != orders[j]
    modifies set o | o in orders
    ensures forall k :: 0 <= k < |orders| ==>
      orders[k].Snapshot() ==
        if old(ResubmitChosen(EnabledStoreIds(c, stores), orders, k))
        then ResubmitOutcome(old(orders[k].Snapshot()), old(CreateFulfillmentOrder(c, orders[k], timestamp, client)))
        else old(orders[k].Snapshot())
  {
    var enabled := CollectEnabledStores(c, stores);
    var taken: nat := 0;
    var i := 0;
    while i < |orders|
      invariant 0 <= i <= |orders|
      invariant taken == old(ResubmitRank(enabled, orders, i))
      invariant forall k :: 0 <= k < i ==>
        orders[k].Snapshot() ==
          if old(ResubmitChosen(enabled, orders, k))
          then ResubmitOutcome(old(orders[k].Snapshot()), old(CreateFulfillmentOrder(c, orders[k], timestamp, client)))
          else old(orders[k].Snapshot())
      invariant forall k :: i <= k < |orders| ==> orders[k].Snapshot() == old(orders[k].Snapshot())
    {
      var order := orders[i];
      assert forall k :: 0 <= k < |orders| && k != i ==> orders[k] != order;
      assert old(ResubmitChosen(enabled, orders, i)) <==>
        Resubmittable(enabled, order, order.Snapshot()) && taken < ResubmitPageSize;
      assert old(ResubmitRank(enabled, orders, i + 1)) ==
        taken + (if Resubmittable(enabled, order, order.Snapshot()) then 1 else 0);
      if Resubmittable(enabled, order, order.Snapshot()) {
        if taken < ResubmitPageSize {
          ResubmitOne(c, order, timestamp, client);
        }
        taken := taken + 1;
      }
      i := i + 1;
    }
  }

  /** The body of the resubmission loop for one order on the page: one create call and its bookkeeping. */
  method ResubmitOne(c: ScopeConfig, order: Order, timestamp: string, client: CreateClient)
    modifies order
    ensures order.Snapshot() == ResubmitOutcome(old(order.Snapshot()), old(CreateFulfillmentOrder(c, order, timestamp, client)))
  {
    var currentAttempt := order.submissionCount + 1;
    var result := CreateFulfillmentOrder(c, order, timestamp, client);
    if result.Some? && result.value.responseMetadata.Some? {
      order.amazonOrderStatus := StatusReceived;
    } else if currentAttempt >= ResubmitRetries {
      order.amazonOrderStatus := StatusFail;
    } else {
      order.submissionCount := currentAttempt;
    }
  }

  /** At most one page of 20 orders is resubmitted per run. */
  lemma {:induction false} ResubmitAtMostAPage(enabled: seq<nat>, orders: seq<Order>, k: nat)
    requires k <= |orders|
    ensures |set j | 0 <= j < k && ResubmitChosen(enabled, orders, j)| <= ResubmitPageSize
  {
    ResubmitChosenCount(enabled, orders, k);
  }

  lemma {:induction false} ResubmitChosenCount(enabled: seq<nat>, orders: seq<Order>, k: nat)
    requires k <= |orders|
    ensures |set j | 0 <= j < k && ResubmitChosen(enabled, orders, j)| <= ResubmitPageSize
    ensures |set j | 0 <= j < k && ResubmitChosen(enabled, orders, j)| == if ResubmitRank(enabled, orders, k) < ResubmitPageSize then ResubmitRank(enabled, orders, k) else ResubmitPageSize
  {
    if k > 0 {
      ResubmitChosenCount(enabled, orders, k - 1);
      var before := set j | 0 <= j < k - 1 && ResubmitChosen(enabled, orders, j);
      var after := set j | 0 <= j < k && ResubmitChosen(enabled, orders, j);
      if ResubmitChosen(enabled, orders, k - 1) {
        assert after == before + {k - 1};
      } else {
        assert after == before;
      }
    }
  }
}
