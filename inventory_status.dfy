/**
 * The inventory cron (Cron/GetInventoryStatus.php). The full sync walks
 * the FBA-enabled catalog 45 products per run, asks Amazon for their
 * supply and overwrites their stock; the incremental sync asks Amazon for
 * the changes of the last day (or the next page of them) and writes the
 * quantities of the products they name.
 */
module InventoryStatus {
  import opened Wrappers
  import opened Php
  import opened OrderedMaps
  import opened Config
  import opened Cursors
  import opened Magento
  import opened InventoryService

  // ---------------------------------------------------------------- the page of the full sync

  /** The rows of the FBA-enabled query, in entity-id order. */
  function EnabledRows(catalog: seq<CatalogProduct>): (r: seq<CatalogProduct>)
    ensures forall p :: p in r <==> p in catalog && p.fbaEnabled
  {
    if catalog == [] then []
    else
      var p := catalog[|catalog| - 1];
      EnabledRows(catalog[..|catalog| - 1]) + (if p.fbaEnabled then [p] else [])
  }

  /** The rows of the merchant-SKU query: a merchant SKU is set and is not "1". */
  function MerchantRows(catalog: seq<CatalogProduct>): (r: seq<CatalogProduct>)
    ensures forall p :: p in r <==> p in catalog && p.merchantSku.Some? && p.merchantSku.value != "1"
  {
    if catalog == [] then []
    else
      var p := catalog[|catalog| - 1];
      MerchantRows(catalog[..|catalog| - 1]) + (if p.merchantSku.Some? && p.merchantSku.value != "1" then [p] else [])
  }

  /** `LIMIT count OFFSET offset`. */
  function Slice<T>(rows: seq<T>, offset: nat, count: nat): (r: seq<T>)
    ensures |r| <= count
    ensures offset >= |rows| ==> r == []
    ensures offset < |rows| ==> r == rows[offset..if offset + count < |rows| then offset + count else |rows|]
  {
    if offset >= |rows| then [] else rows[offset..if offset + count < |rows| then offset + count else |rows|]
  }

  /** The product's alternate (merchant) SKU, attached only when truthy. */
  function AltSku(p: CatalogProduct): (r: Option<string>)
    ensures r.Some? <==> p.merchantSku.Some? && p.merchantSku.value != "1" && Truthy(p.merchantSku.value)
    ensures r.Some? ==> r == p.merchantSku
  {
    if p.merchantSku.Some? && p.merchantSku.value != "1" && Truthy(p.merchantSku.value) then p.merchantSku else None
  }

  /** One entry of `$skuData`: the Magento SKU and the alternate SKU, if any. */
  datatype PageEntry = PageEntry(sku: string, altSku: Option<string>)

  /** The SKU Amazon is asked for: the alternate SKU if attached, else the Magento SKU. */
  function QuerySku(e: PageEntry): (s: string)
    ensures e.altSku.Some? ==> s == e.altSku.value
    ensures e.altSku.None? ==> s == e.sku
  {
    match e.altSku
    case Some(alt) => alt
    case None => e.sku
  }

  /** `$skuData` for a page: each product's entry under its entity id, with its own alternate SKU. */
  function PageEntries(page: seq<CatalogProduct>): OrderedMap<int, PageEntry>
  {
    if page == [] then []
    else
      var p := page[|page| - 1];
      Put(PageEntries(page[..|page| - 1]), p.entityId, PageEntry(p.sku, AltSku(p)))
  }

  /** The page of 45 FBA-enabled products starting at the stored row. */
  function FullSyncPage(catalog: seq<CatalogProduct>, startRow: nat): seq<CatalogProduct>
  {
    Slice(EnabledRows(catalog), startRow, InventoryRowCount)
  }

  /** Entity ids are unique and ascending, as the catalog table keeps them. */
  predicate AscendingIds(rows: seq<CatalogProduct>)
  {
    forall i, j :: 0 <= i < j < |rows| ==> rows[i].entityId < rows[j].entityId
  }

  lemma {:induction false} EnabledRowsAscending(catalog: seq<CatalogProduct>)
    requires AscendingIds(catalog)
    ensures AscendingIds(EnabledRows(catalog))
  {
    if catalog != [] {
      var init := catalog[..|catalog| - 1];
      var p := catalog[|catalog| - 1];
      EnabledRowsAscending(init);
      var r := EnabledRows(catalog);
      forall i, j | 0 <= i < j < |r| ensures r[i].entityId < r[j].entityId {
        assert r[i] in catalog && r[j] in catalog;
        if j < |EnabledRows(init)| {
          assert r[i] == EnabledRows(init)[i] && r[j] == EnabledRows(init)[j];
        } else {
          assert r[j] == p;
          assert r[i] in EnabledRows(init);
          var k :| 0 <= k < |init| && init[k] == r[i];
          assert catalog[k] == r[i];
        }
      }
    }
  }

  /** With unique ids the page has one entry per product, in page order, carrying that product's SKUs. */
  lemma {:induction false} PageEntriesExact(page: seq<CatalogProduct>)
    requires AscendingIds(page)
    ensures |PageEntries(page)| == |page|
    ensures forall i :: 0 <= i < |page| ==> PageEntries(page)[i] == (page[i].entityId, PageEntry(page[i].sku, AltSku(page[i])))
  {
    if page != [] {
      var init := page[..|page| - 1];
      var p := page[|page| - 1];
      assert AscendingIds(init) by {
        forall i, j | 0 <= i < j < |init| ensures init[i].entityId < init[j].entityId {
          assert init[i] == page[i] && init[j] == page[j];
        }
      }
      PageEntriesExact(init);
      var m := PageEntries(init);
      var ks := Keys(m);
      forall k | 0 <= k < |ks| ensures ks[k] != p.entityId {
        assert ks[k] == m[k].0 == init[k].entityId;
        assert init[k] == page[k];
      }
      assert PageEntries(page) == m + [(p.entityId, PageEntry(p.sku, AltSku(p)))];
    }
  }

  /** The full sync reads at most 45 products per run, and the offset moves by the number read. */
  lemma FullSyncPageBounded(catalog: seq<CatalogProduct>, startRow: nat)
    requires AscendingIds(catalog)
    ensures |PageEntries(FullSyncPage(catalog, startRow))| == |FullSyncPage(catalog, startRow)| <= InventoryRowCount
  {
    EnabledRowsAscending(catalog);
    var rows := EnabledRows(catalog);
    var page := FullSyncPage(catalog, startRow);
    assert AscendingIds(page) by {
      if startRow < |rows| {
        forall i, j | 0 <= i < j < |page| ensures page[i].entityId < page[j].entityId {
          assert page[i] == rows[startRow + i] && page[j] == rows[startRow + j];
        }
      }
    }
    PageEntriesExact(page);
  }

  /** The entry as written: a merchant-SKU row for an entity outside the page creates an entry without a Magento SKU. */
  datatype RawEntry = RawEntry(sku: Option<string>, altSku: Option<string>)

  function BaseEntriesAsWritten(page: seq<CatalogProduct>): OrderedMap<int, RawEntry>
  {
    if page == [] then []
    else
      var p := page[|page| - 1];
      Put(BaseEntriesAsWritten(page[..|page| - 1]), p.entityId, RawEntry(Some(p.sku), None))
  }

  /** The merchant-SKU loop as written: every truthy row sets `alt_sku` under its entity id. */
  function AttachAltAsWritten(entries: OrderedMap<int, RawEntry>, merchantRows: seq<CatalogProduct>): OrderedMap<int, RawEntry>
  {
    if merchantRows == [] then entries
    else
      var m := AttachAltAsWritten(entries, merchantRows[..|merchantRows| - 1]);
      var p := merchantRows[|merchantRows| - 1];
      if Truthy(p.merchantSku.GetOr("")) then
        Put(m, p.entityId, Get(m, p.entityId).GetOr(RawEntry(None, None)).(altSku := p.merchantSku))
      else m
  }

  /**
   * getAmazonFulfilledSkus as written: once the page is non-empty, the
   * merchant-SKU query is run, paged on its own.
   */
  function PageEntriesAsWritten(catalog: seq<CatalogProduct>, startRow: nat): OrderedMap<int, RawEntry>
  {
    var base := BaseEntriesAsWritten(FullSyncPage(catalog, startRow));
    if base == [] then [] else AttachAltAsWritten(base, Slice(MerchantRows(catalog), startRow, InventoryRowCount))
  }

  /** The stored offset after getAmazonFulfilledSkus as written: moved on by `count($skus)` when the page is not empty. */
  function NextRowAsWritten(catalog: seq<CatalogProduct>, startRow: nat): nat
  {
    var n := |PageEntriesAsWritten(catalog, startRow)|;
    if n == 0 then startRow else startRow + n
  }

  /**
   * The independently paged merchant-SKU query: with one FBA product and
   * one non-FBA product that has a merchant SKU, the page as written has
   * two entries, one of them without a Magento SKU, and the stored offset
   * moves by two although one product was read; the corrected page has
   * one entry, so its offset moves by one.
   */
  lemma PhantomEntryAsWritten()
    ensures
      var catalog := [CatalogProduct(1, "P1", true, None), CatalogProduct(2, "P2", false, Some("M2"))];
      |PageEntriesAsWritten(catalog, 0)| == 2 &&
      PageEntriesAsWritten(catalog, 0)[1] == (2, RawEntry(None, Some("M2"))) &&
      NextRowAsWritten(catalog, 0) == 2 &&
      |PageEntries(FullSyncPage(catalog, 0))| == 1
  {
    var catalog := [CatalogProduct(1, "P1", true, None), CatalogProduct(2, "P2", false, Some("M2"))];
    assert catalog[..1] == [CatalogProduct(1, "P1", true, None)];
    assert catalog[..0] == [];
    assert EnabledRows(catalog) == [CatalogProduct(1, "P1", true, None)];
    assert MerchantRows(catalog) == [CatalogProduct(2, "P2", false, Some("M2"))];
    assert FullSyncPage(catalog, 0) == [CatalogProduct(1, "P1", true, None)];
    var base := BaseEntriesAsWritten(FullSyncPage(catalog, 0));
    assert base == [(1, RawEntry(Some("P1"), None))];
    assert Keys(base) == [1];
    var merchant := [CatalogProduct(2, "P2", false, Some("M2"))];
    assert Slice(MerchantRows(catalog), 0, InventoryRowCount) == merchant;
    assert merchant[..0] == [];
    assert AttachAltAsWritten(base, merchant[..0]) == base;
    assert Get(base, 2) == None;
    assert Truthy("M2");
    assert PageEntriesAsWritten(catalog, 0) == Put(base, 2, RawEntry(None, Some("M2")));
  }

  /**
   * getAmazonFulfilledSkus: the page's entries; a non-empty page moves the
   * stored offset past the products read, an empty one leaves it.
   */
  method GetAmazonFulfilledSkus(cursors: VariableStore, catalog: seq<CatalogProduct>) returns (entries: OrderedMap<int, PageEntry>)
    modifies cursors
    ensures entries == PageEntries(FullSyncPage(catalog, old(cursors.InventoryProcessRow())))
    ensures PageEntries(FullSyncPage(catalog, old(cursors.InventoryProcessRow()))) != [] ==>
      var next := old(cursors.InventoryProcessRow()) + |PageEntries(FullSyncPage(catalog, old(cursors.InventoryProcessRow())))|;
      cursors.rows == old(cursors.rows)[InventorySyncPage := Variable(InventorySyncPage, Number(next), Number(next))]
    ensures entries == [] ==> cursors.rows == old(cursors.rows)
  {
    var rowCount := cursors.InventoryRowCount();
    var startRow := cursors.InventoryProcessRow();
    var page := Slice(EnabledRows(catalog), startRow, rowCount);
    entries := BuildPageEntries(page);
    if entries != [] {
      cursors.SetInventoryProcessRow(startRow + |entries|);
    }
  }

  /** The loop over the page's rows that builds `$skuData`. */
  method BuildPageEntries(page: seq<CatalogProduct>) returns (entries: OrderedMap<int, PageEntry>)
    ensures entries == PageEntries(page)
  {
    entries := [];
    var i := 0;
    while i < |page|
      invariant 0 <= i <= |page|
      invariant entries == PageEntries(page[..i])
    {
      var p := page[i];
      var entry := EntryOf(p);
      PageEntriesStep(page, i);
      entries := Put(entries, p.entityId, entry);
      i := i + 1;
    }
    assert page[..i] == page;
  }

  /** One page row's entry: its SKU, and its merchant SKU when that exists, is not `1` and is truthy. */
  method EntryOf(p: CatalogProduct) returns (entry: PageEntry)
    ensures entry == PageEntry(p.sku, AltSku(p))
  {
    var alt: Option<string> := None;
    if p.merchantSku.Some? && p.merchantSku.value != "1" && Truthy(p.merchantSku.value) {
      alt := p.merchantSku;
    }
    entry := PageEntry(p.sku, alt);
  }

  lemma PageEntriesStep(page: seq<CatalogProduct>, i: nat)
    requires i < |page|
    ensures PageEntries(page[..i + 1]) == Put(PageEntries(page[..i]), page[i].entityId, PageEntry(page[i].sku, AltSku(page[i])))
  {
    assert page[..i + 1][..i] == page[..i];
  }

  /** The SKUs sent to Amazon, one per entry in entry order. */
  function QuerySkus(entries: OrderedMap<int, PageEntry>): (r: seq<string>)
    ensures |r| == |entries|
    ensures forall i :: 0 <= i < |entries| ==> r[i] == QuerySku(entries[i].1)
  {
    if entries == [] then []
    else QuerySkus(entries[..|entries| - 1]) + [QuerySku(entries[|entries| - 1].1)]
  }

  method QuerySkuList(entries: OrderedMap<int, PageEntry>) returns (skus: seq<string>)
    ensures skus == QuerySkus(entries)
  {
    skus := [];
    var i := 0;
    while i < |entries|
      invariant 0 <= i <= |entries|
      invariant skus == QuerySkus(entries[..i])
    {
      assert entries[..i + 1][..i] == entries[..i];
      var data := entries[i].1;
      if data.altSku.Some? {
        skus := skus + [data.altSku.value];
      } else {
        skus := skus + [data.sku];
      }
      i := i + 1;
    }
    assert entries[..i] == entries;
  }

  // ---------------------------------------------------------------- processing a full-sync supply list

  /** A record the full sync counts: a SKU, immediate availability and a non-zero quantity. */
  predicate CountsForFullSync(r: SupplyRecord)
  {
    Truthy(r.sellerSku) && r.earliestAvailability == Some("Immediately") && r.inStock != 0
  }

  /** processSupplyListData's `$skuQuantities`. */
  function FullSkuQuantities(records: seq<SupplyRecord>): OrderedMap<string, int>
  {
    if records == [] then []
    else
      var q := FullSkuQuantities(records[..|records| - 1]);
      var r := records[|records| - 1];
      if CountsForFullSync(r) then Put(q, r.sellerSku, r.inStock) else q
  }

  /** Only counting records contribute, each quantity is non-zero, and a later record for a SKU wins. */
  lemma {:induction false} FullSkuQuantitiesSound(records: seq<SupplyRecord>, sku: string)
    ensures Get(FullSkuQuantities(records), sku).Some? <==>
      exists j :: 0 <= j < |records| && records[j].sellerSku == sku && CountsForFullSync(records[j])
    ensures Get(FullSkuQuantities(records), sku).Some? ==> Get(FullSkuQuantities(records), sku).value != 0
  {
    if records != [] {
      var init := records[..|records| - 1];
      var r := records[|records| - 1];
      FullSkuQuantitiesSound(init, sku);
      if CountsForFullSync(r) {
        GetPut(FullSkuQuantities(init), r.sellerSku, r.inStock, sku);
      }
      if exists j :: 0 <= j < |records| && records[j].sellerSku == sku && CountsForFullSync(records[j]) {
        var j :| 0 <= j < |records| && records[j].sellerSku == sku && CountsForFullSync(records[j]);
        if j < |init| {
          assert init[j] == records[j];
        }
      }
      if exists j :: 0 <= j < |init| && init[j].sellerSku == sku && CountsForFullSync(init[j]) {
        var j :| 0 <= j < |init| && init[j].sellerSku == sku && CountsForFullSync(init[j]);
        assert records[j] == init[j];
      }
    }
  }

  method GetFullSkuQuantities(records: seq<SupplyRecord>) returns (q: OrderedMap<string, int>)
    ensures q == FullSkuQuantities(records)
  {
    q := [];
    var i := 0;
    while i < |records|
      invariant 0 <= i <= |records|
      invariant q == FullSkuQuantities(records[..i])
    {
      assert records[..i + 1][..i] == records[..i];
      var item := records[i];
      var availability := if item.earliestAvailability.Some? then item.earliestAvailability.value else "";
      if Truthy(item.sellerSku) && availability == "Immediately" && item.inStock != 0 {
        q := Put(q, item.sellerSku, item.inStock);
      }
      i := i + 1;
    }
    assert records[..i] == records;
  }

  /** One entry of `$updates`, with the entry's `hasData` flag. */
  datatype Update = Update(qty: int, sku: string, hasData: bool)

  /** An entry's update: the canonical SKU's quantity, else the alternate SKU's, else 0 and unmatched. */
  function ResolveEntry(e: PageEntry, q: OrderedMap<string, int>): Update
  {
    var canonical := Get(q, e.sku);
    if canonical.Some? && canonical.value != 0 then Update(canonical.value, e.sku, true)
    else if e.altSku.Some? && Get(q, e.altSku.value).Some? && Get(q, e.altSku.value).value != 0
    then Update(Get(q, e.altSku.value).value, e.sku, true)
    else Update(0, e.sku, false)
  }

  /**
   * The resolution rules: a canonical match wins over an alternate one,
   * an alternate match is used only without a canonical one, and an
   * unmatched entry gets quantity 0; the Magento SKU is always kept.
   */
  lemma ResolveEntryRules(e: PageEntry, q: OrderedMap<string, int>)
    requires forall k :: Get(q, k).Some? ==> Get(q, k).value != 0
    ensures ResolveEntry(e, q).sku == e.sku
    ensures Get(q, e.sku).Some? ==> ResolveEntry(e, q) == Update(Get(q, e.sku).value, e.sku, true)
    ensures Get(q, e.sku).None? && e.altSku.Some? && Get(q, e.altSku.value).Some? ==>
      ResolveEntry(e, q) == Update(Get(q, e.altSku.value).value, e.sku, true)
    ensures ResolveEntry(e, q).hasData <==> Get(q, e.sku).Some? || (e.altSku.Some? && Get(q, e.altSku.value).Some?)
    ensures !ResolveEntry(e, q).hasData ==> ResolveEntry(e, q).qty == 0
  {
  }

  function FullUpdates(entries: OrderedMap<int, PageEntry>, q: OrderedMap<string, int>): (r: OrderedMap<int, Update>)
    ensures |r| == |entries|
    ensures forall i :: 0 <= i < |entries| ==> r[i] == (entries[i].0, ResolveEntry(entries[i].1, q))
  {
    if entries == [] then []
    else
      var e := entries[|entries| - 1];
      FullUpdates(entries[..|entries| - 1], q) + [(e.0, ResolveEntry(e.1, q))]
  }

  function ApplyFullWrites(items: map<int, StockItem>, updates: OrderedMap<int, Update>): map<int, StockItem>
  {
    if updates == [] then items
    else
      var u := updates[|updates| - 1];
      var m := ApplyFullWrites(items, updates[..|updates| - 1]);
      m[u.0 := Restocked(StockOf(m, u.0), u.1.qty)]
  }

  /**
   * Every page entity gets a write: its quantity is the update's, and it
   * is in stock exactly when that quantity is positive; entities outside
   * the page keep their stock.
   */
  lemma {:induction false} FullWritesOutside(items: map<int, StockItem>, updates: OrderedMap<int, Update>, entityId: int)
    requires entityId !in Keys(updates)
    ensures StockOf(ApplyFullWrites(items, updates), entityId) == StockOf(items, entityId)
  {
    if updates != [] {
      FullWritesOutside(items, updates[..|updates| - 1], entityId);
    }
  }

  lemma {:induction false} FullWritesAt(items: map<int, StockItem>, updates: OrderedMap<int, Update>, i: nat)
    requires DistinctKeys(updates) && i < |updates|
    ensures StockOf(ApplyFullWrites(items, updates), updates[i].0) == StockItem(updates[i].1.qty, updates[i].1.qty > 0)
  {
    var init := updates[..|updates| - 1];
    if i < |init| {
      assert DistinctKeys(init);
      FullWritesAt(items, init, i);
      assert init[i] == updates[i];
    }
  }

  /**
   * Every page entity gets a write: its quantity is the update's, and it
   * is in stock exactly when that quantity is positive; entities outside
   * the page keep their stock.
   */
  lemma FullWritesExact(items: map<int, StockItem>, updates: OrderedMap<int, Update>, entityId: int)
    requires DistinctKeys(updates)
    ensures entityId !in Keys(updates) ==> StockOf(ApplyFullWrites(items, updates), entityId) == StockOf(items, entityId)
    ensures forall i :: 0 <= i < |updates| && updates[i].0 == entityId ==>
      StockOf(ApplyFullWrites(items, updates), entityId) == StockItem(updates[i].1.qty, updates[i].1.qty > 0)
  {
    if entityId !in Keys(updates) {
      FullWritesOutside(items, updates, entityId);
    }
    forall i | 0 <= i < |updates| && updates[i].0 == entityId
      ensures StockOf(ApplyFullWrites(items, updates), entityId) == StockItem(updates[i].1.qty, updates[i].1.qty > 0)
    {
      FullWritesAt(items, updates, i);
    }
  }

  /** Running the same writes twice gives the same stock as once. */
  lemma {:induction false} FullWritesIdempotent(items: map<int, StockItem>, updates: OrderedMap<int, Update>)
    requires DistinctKeys(updates)
    ensures ApplyFullWrites(ApplyFullWrites(items, updates), updates) == ApplyFullWrites(items, updates)
  {
    var once := ApplyFullWrites(items, updates);
    var twice := ApplyFullWrites(once, updates);
    forall id | true ensures StockOf(twice, id) == StockOf(once, id) {
      FullWritesExact(items, updates, id);
      FullWritesExact(once, updates, id);
    }
    WritesKeys(items, updates);
    WritesKeys(once, updates);
    assert twice.Keys == once.Keys;
    forall id | id in once ensures twice[id] == once[id] {
      assert StockOf(twice, id) == StockOf(once, id);
    }
  }

  lemma {:induction false} WritesKeys(items: map<int, StockItem>, updates: OrderedMap<int, Update>)
    ensures ApplyFullWrites(items, updates).Keys == items.Keys + set i | 0 <= i < |updates| :: updates[i].0
  {
    if updates != [] {
      var init := updates[..|updates| - 1];
      WritesKeys(items, init);
      assert (set i | 0 <= i < |updates| :: updates[i].0) == (set i | 0 <= i < |init| :: init[i].0) + {updates[|updates| - 1].0} by {
        forall i | 0 <= i < |init| ensures init[i] == updates[i] {}
      }
    }
  }

  /** The SKUs of the mismatch notice: each unmatched entry's query SKU, in entry order. */
  function MismatchSkus(entries: OrderedMap<int, PageEntry>, q: OrderedMap<string, int>): seq<string>
  {
    if entries == [] then []
    else
      var e := entries[|entries| - 1];
      MismatchSkus(entries[..|entries| - 1], q) + (if ResolveEntry(e.1, q).hasData then [] else [QuerySku(e.1)])
  }

  lemma {:induction false} MismatchSkusExact(entries: OrderedMap<int, PageEntry>, q: OrderedMap<string, int>, sku: string)
    ensures sku in MismatchSkus(entries, q) <==>
      exists i :: 0 <= i < |entries| && !ResolveEntry(entries[i].1, q).hasData && QuerySku(entries[i].1) == sku
  {
    if entries != [] {
      var init := entries[..|entries| - 1];
      MismatchSkusExact(init, q, sku);
      if exists i :: 0 <= i < |entries| && !ResolveEntry(entries[i].1, q).hasData && QuerySku(entries[i].1) == sku {
        var i :| 0 <= i < |entries| && !ResolveEntry(entries[i].1, q).hasData && QuerySku(entries[i].1) == sku;
        if i < |init| {
          assert init[i] == entries[i];
        }
      }
      if exists i :: 0 <= i < |init| && !ResolveEntry(init[i].1, q).hasData && QuerySku(init[i].1) == sku {
        var i :| 0 <= i < |init| && !ResolveEntry(init[i].1, q).hasData && QuerySku(init[i].1) == sku;
        assert entries[i] == init[i];
      }
    }
  }

  /** The notice of a processed page: the mismatched SKUs, or all matched when there are none. */
  function FullSyncNotice(entries: OrderedMap<int, PageEntry>, q: OrderedMap<string, int>): Notice
  {
    var skus := MismatchSkus(entries, q);
    if skus == [] then InventoryAllMatched else InventoryMismatch(skus)
  }

  /** createInventoryNotifications. */
  method CreateInventoryNotifications(entries: OrderedMap<int, PageEntry>, updates: OrderedMap<int, Update>, q: OrderedMap<string, int>, notifier: Notifier)
    requires updates == FullUpdates(entries, q)
    modifies notifier
    ensures notifier.notices == old(notifier.notices) + [FullSyncNotice(entries, q)]
  {
    var skus: seq<string> := [];
    var i := 0;
    while i < |entries|
      invariant 0 <= i <= |entries|
      invariant skus == MismatchSkus(entries[..i], q)
    {
      assert entries[..i + 1][..i] == entries[..i];
      if !updates[i].1.hasData {
        var data := entries[i].1;
        if data.altSku.Some? {
          skus := skus + [data.altSku.value];
        } else {
          skus := skus + [data.sku];
        }
      }
      i := i + 1;
    }
    assert entries[..i] == entries;
    if skus != [] {
      notifier.AddNotice(InventoryMismatch(skus));
    } else {
      notifier.AddNotice(InventoryAllMatched);
    }
  }

  /** The stock-write loop of processSupplyListData. */
  method WriteFullUpdates(updates: OrderedMap<int, Update>, stock: StockRegistry)
    modifies stock
    ensures stock.items == ApplyFullWrites(old(stock.items), updates)
  {
    var i := 0;
    while i < |updates|
      invariant 0 <= i <= |updates|
      invariant stock.items == ApplyFullWrites(old(stock.items), updates[..i])
    {
      assert updates[..i + 1][..i] == updates[..i];
      var entityId := updates[i].0;
      var stockItem := stock.StockItemOf(entityId);
      stockItem := stockItem.(qty := updates[i].1.qty);
      if updates[i].1.qty > 0 {
        stockItem := stockItem.(isInStock := true);
      } else {
        stockItem := stockItem.(isInStock := false);
      }
      stock.UpdateStockItem(entityId, stockItem);
      i := i + 1;
    }
    assert updates[..i] == updates;
  }

  /**
   * processSupplyListData: resolve every page entry against the counted
   * records, write every entry's stock, and raise one notice.
   */
  method ProcessSupplyListData(records: seq<SupplyRecord>, entries: OrderedMap<int, PageEntry>, stock: StockRegistry, notifier: Notifier)
    modifies stock, notifier
    ensures stock.items == ApplyFullWrites(old(stock.items), FullUpdates(entries, FullSkuQuantities(records)))
    ensures entries != [] ==> notifier.notices == old(notifier.notices) + [FullSyncNotice(entries, FullSkuQuantities(records))]
    ensures entries == [] ==> notifier.notices == old(notifier.notices)
  {
    var q := GetFullSkuQuantities(records);
    var updates: OrderedMap<int, Update> := [];
    var i := 0;
    while i < |entries|
      invariant 0 <= i <= |entries|
      invariant updates == FullUpdates(entries[..i], q)
    {
      assert entries[..i + 1][..i] == entries[..i];
      var entityId := entries[i].0;
      var data := entries[i].1;
      var update := Update(0, data.sku, false);
      var canonical := Get(q, data.sku);
      if canonical.Some? && canonical.value != 0 {
        update := Update(canonical.value, data.sku, true);
      } else if data.altSku.Some? && Get(q, data.altSku.value).Some? && Get(q, data.altSku.value).value != 0 {
        update := Update(Get(q, data.altSku.value).value, data.sku, true);
      }
      updates := updates + [(entityId, update)];
      i := i + 1;
    }
    assert entries[..i] == entries;
    if updates != [] {
      WriteFullUpdates(updates, stock);
      CreateInventoryNotifications(entries, updates, q, notifier);
    }
  }

  // ---------------------------------------------------------------- the full sync

  /** What the full sync does to the stock when Amazon answers with a non-empty supply list. */
  function FullSyncStock(items: map<int, StockItem>, entries: OrderedMap<int, PageEntry>, response: Option<SupplyResponse>): map<int, StockItem>
  {
    if response.Some? && response.value.members != []
    then ApplyFullWrites(items, FullUpdates(entries, FullSkuQuantities(response.value.members)))
    else items
  }

  /** The notice the full sync raises for a page, given Amazon's answer. */
  function FullSyncNotices(entries: OrderedMap<int, PageEntry>, response: Option<SupplyResponse>): seq<Notice>
  {
    if response.Some? && response.value.members != []
    then [FullSyncNotice(entries, FullSkuQuantities(response.value.members))]
    else []
  }

  /** A non-empty page: ask Amazon for its query SKUs and process a non-empty answer. */
  method SyncPage(c: ScopeConfig, skuData: OrderedMap<int, PageEntry>, stock: StockRegistry, notifier: Notifier, client: SupplyClient)
    requires skuData != []
    modifies stock, notifier
    ensures
      var response := GetFulfillmentInventoryList(c, QuerySkus(skuData), "", client);
      stock.items == FullSyncStock(old(stock.items), skuData, response)
      && notifier.notices == old(notifier.notices) + FullSyncNotices(skuData, response)
  {
    var skus := QuerySkuList(skuData);
    if skus != [] {
      var response := GetFulfillmentInventoryList(c, skus, "", client);
      if response.Some? {
        var supplyList := response.value.members;
        if supplyList != [] {
          ProcessSupplyListData(supplyList, skuData, stock, notifier);
        }
      }
    }
  }

  /**
   * cronFullInventoryStatus: nothing while the done flag is set; an empty
   * page sets the flag and rewinds; otherwise the page is asked for by
   * query SKU, the offset moves past it, and a non-empty answer is
   * written to the page's stock.
   */
  method CronFullInventoryStatus(c: ScopeConfig, cursors: VariableStore, catalog: seq<CatalogProduct>,
                                 stock: StockRegistry, notifier: Notifier, client: SupplyClient)
    modifies cursors, stock, notifier
    ensures old(cursors.InventoryProcessStatus()) ==>
      cursors.rows == old(cursors.rows) && stock.items == old(stock.items) && notifier.notices == old(notifier.notices)
    ensures !old(cursors.InventoryProcessStatus()) && PageEntries(FullSyncPage(catalog, old(cursors.InventoryProcessRow()))) == [] ==>
      cursors.rows == old(cursors.rows)
        [InventorySyncRunning := Variable(InventorySyncRunning, Flag(true), Flag(true))]
        [InventorySyncPage := Variable(InventorySyncPage, Number(0), Number(0))]
      && stock.items == old(stock.items) && notifier.notices == old(notifier.notices)
    ensures !old(cursors.InventoryProcessStatus()) && PageEntries(FullSyncPage(catalog, old(cursors.InventoryProcessRow()))) != [] ==>
      var entries := PageEntries(FullSyncPage(catalog, old(cursors.InventoryProcessRow())));
      var next := old(cursors.InventoryProcessRow()) + |entries|;
      var response := GetFulfillmentInventoryList(c, QuerySkus(entries), "", client);
      cursors.rows == old(cursors.rows)[InventorySyncPage := Variable(InventorySyncPage, Number(next), Number(next))]
      && stock.items == FullSyncStock(old(stock.items), entries, response)
      && notifier.notices == old(notifier.notices) + FullSyncNotices(entries, response)
  {
    if !cursors.InventoryProcessStatus() {
      FullSyncPass(c, cursors, catalog, stock, notifier, client);
    }
  }

  /** One pass of the full sync once the done flag is clear: sync the page at the offset, or finish. */
  method FullSyncPass(c: ScopeConfig, cursors: VariableStore, catalog: seq<CatalogProduct>,
                      stock: StockRegistry, notifier: Notifier, client: SupplyClient)
    modifies cursors, stock, notifier
    ensures PageEntries(FullSyncPage(catalog, old(cursors.InventoryProcessRow()))) == [] ==>
      cursors.rows == old(cursors.rows)
        [InventorySyncRunning := Variable(InventorySyncRunning, Flag(true), Flag(true))]
        [InventorySyncPage := Variable(InventorySyncPage, Number(0), Number(0))]
      && stock.items == old(stock.items) && notifier.notices == old(notifier.notices)
    ensures PageEntries(FullSyncPage(catalog, old(cursors.InventoryProcessRow()))) != [] ==>
      var entries := PageEntries(FullSyncPage(catalog, old(cursors.InventoryProcessRow())));
      var next := old(cursors.InventoryProcessRow()) + |entries|;
      var response := GetFulfillmentInventoryList(c, QuerySkus(entries), "", client);
      cursors.rows == old(cursors.rows)[InventorySyncPage := Variable(InventorySyncPage, Number(next), Number(next))]
      && stock.items == FullSyncStock(old(stock.items), entries, response)
      && notifier.notices == old(notifier.notices) + FullSyncNotices(entries, response)
  {
    var skuData := GetAmazonFulfilledSkus(cursors, catalog);
    if skuData != [] {
      SyncPage(c, skuData, stock, notifier, client);
    } else {
      FinishFullSync(cursors);
    }
  }

  /** The end of a full pass: the done flag is set and the offset rewinds to row 0. */
  method FinishFullSync(cursors: VariableStore)
    modifies cursors
    ensures cursors.rows == old(cursors.rows)
      [InventorySyncRunning := Variable(InventorySyncRunning, Flag(true), Flag(true))]
      [InventorySyncPage := Variable(InventorySyncPage, Number(0), Number(0))]
    ensures cursors.InventoryProcessStatus() && cursors.InventoryProcessRow() == 0
  {
    cursors.SetInventoryProcessStatus(true);
    cursors.SetInventoryProcessRow(0);
  }

  // ---------------------------------------------------------------- the incremental sync

  /** getSkuQuantities: every returned record's quantity under its SKU, whatever its availability. */
  function AllSkuQuantities(records: seq<SupplyRecord>): OrderedMap<string, int>
  {
    if records == [] then []
    else
      var r := records[|records| - 1];
      Put(AllSkuQuantities(records[..|records| - 1]), r.sellerSku, r.inStock)
  }

  lemma {:induction false} AllSkuQuantitiesKeys(records: seq<SupplyRecord>, sku: string)
    ensures Get(AllSkuQuantities(records), sku).Some? <==> exists j :: 0 <= j < |records| && records[j].sellerSku == sku
  {
    if records != [] {
      var init := records[..|records| - 1];
      var r := records[|records| - 1];
      AllSkuQuantitiesKeys(init, sku);
      GetPut(AllSkuQuantities(init), r.sellerSku, r.inStock, sku);
      assert forall j :: 0 <= j < |init| ==> init[j] == records[j];
      if r.sellerSku != sku {
        assert (exists j :: 0 <= j < |records| && records[j].sellerSku == sku) ==>
          exists j :: 0 <= j < |init| && init[j].sellerSku == sku;
      }
    }
  }

  method GetSkuQuantities(records: seq<SupplyRecord>) returns (q: OrderedMap<string, int>)
    ensures q == AllSkuQuantities(records)
  {
    q := [];
    var i := 0;
    while i < |records|
      invariant 0 <= i <= |records|
      invariant q == AllSkuQuantities(records[..i])
    {
      assert records[..i + 1][..i] == records[..i];
      q := Put(q, records[i].sellerSku, records[i].inStock);
      i := i + 1;
    }
    assert records[..i] == records;
  }

  /** A `$matches` entry: the product's Magento SKU and the quantity to write. */
  datatype Match = Match(sku: string, qty: int)

  /** The first query: FBA-enabled products whose SKU was returned. */
  function CanonicalMatches(catalog: seq<CatalogProduct>, q: OrderedMap<string, int>): OrderedMap<int, Match>
  {
    if catalog == [] then []
    else
      var m := CanonicalMatches(catalog[..|catalog| - 1], q);
      var p := catalog[|catalog| - 1];
      if p.sku in Keys(q) && p.fbaEnabled then Put(m, p.entityId, Match(p.sku, Get(q, p.sku).GetOr(0))) else m
  }

  /** The second query: products whose merchant SKU was returned, overwriting earlier matches. */
  function MerchantMatches(m0: OrderedMap<int, Match>, catalog: seq<CatalogProduct>, q: OrderedMap<string, int>): OrderedMap<int, Match>
  {
    if catalog == [] then m0
    else
      var m := MerchantMatches(m0, catalog[..|catalog| - 1], q);
      var p := catalog[|catalog| - 1];
      if p.merchantSku.Some? && p.merchantSku.value in Keys(q)
      then Put(m, p.entityId, Match(p.sku, Get(q, p.merchantSku.value).GetOr(0)))
      else m
  }

  function InventoryMatches(catalog: seq<CatalogProduct>, q: OrderedMap<string, int>): OrderedMap<int, Match>
  {
    MerchantMatches(CanonicalMatches(catalog, q), catalog, q)
  }

  /** An entity nobody in the catalog prefix names keeps its match untouched. */
  lemma {:induction false} MerchantMatchesOther(m0: OrderedMap<int, Match>, catalog: seq<CatalogProduct>, q: OrderedMap<string, int>, entityId: int)
    requires forall j :: 0 <= j < |catalog| ==> catalog[j].entityId != entityId
    ensures Get(MerchantMatches(m0, catalog, q), entityId) == Get(m0, entityId)
  {
    if catalog != [] {
      var init := catalog[..|catalog| - 1];
      var p := catalog[|catalog| - 1];
      MerchantMatchesOther(m0, init, q, entityId);
      if p.merchantSku.Some? && p.merchantSku.value in Keys(q) {
        GetPut(MerchantMatches(m0, init, q), p.entityId, Match(p.sku, Get(q, p.merchantSku.value).GetOr(0)), entityId);
      }
    }
  }

  /**
   * The incremental path lets a merchant-SKU match overwrite a canonical
   * one: a product whose merchant SKU was returned is written with that
   * SKU's quantity, even when its own SKU was returned too.
   */
  lemma AltMatchOverridesCanonical(catalog: seq<CatalogProduct>, q: OrderedMap<string, int>, k: nat)
    requires AscendingIds(catalog) && k < |catalog|
    requires catalog[k].merchantSku.Some? && catalog[k].merchantSku.value in Keys(q)
    ensures Get(InventoryMatches(catalog, q), catalog[k].entityId) ==
      Some(Match(catalog[k].sku, Get(q, catalog[k].merchantSku.value).value))
  {
    var p := catalog[k];
    var prefix := catalog[..k + 1];
    var rest := catalog[k + 1..];
    MerchantMatchesSplit(CanonicalMatches(catalog, q), catalog, q, k + 1);
    assert prefix[..k] == catalog[..k];
    var m := MerchantMatches(CanonicalMatches(catalog, q), catalog[..k], q);
    GetPut(m, p.entityId, Match(p.sku, Get(q, p.merchantSku.value).GetOr(0)), p.entityId);
    forall j | 0 <= j < |rest| ensures rest[j].entityId != p.entityId {
      assert rest[j] == catalog[k + 1 + j];
    }
    MerchantMatchesOther(MerchantMatches(CanonicalMatches(catalog, q), prefix, q), rest, q, p.entityId);
  }

  /** Folding over a catalog is folding over its first `n` rows and then the rest. */
  lemma {:induction false} MerchantMatchesSplit(m0: OrderedMap<int, Match>, catalog: seq<CatalogProduct>, q: OrderedMap<string, int>, n: nat)
    requires n <= |catalog|
    ensures MerchantMatches(m0, catalog, q) == MerchantMatches(MerchantMatches(m0, catalog[..n], q), catalog[n..], q)
    decreases |catalog|
  {
    if |catalog| == n {
      assert catalog[..n] == catalog;
      assert catalog[n..] == [];
    } else {
      var init := catalog[..|catalog| - 1];
      MerchantMatchesSplit(m0, init, q, n);
      assert init[..n] == catalog[..n];
      assert catalog[n..][..|catalog[n..]| - 1] == init[n..];
      assert catalog[n..][|catalog[n..]| - 1] == catalog[|catalog| - 1];
    }
  }

  /** getMagentoInventoryData: the two match loops over the queries' rows. */
  method GetMagentoInventoryData(q: OrderedMap<string, int>, catalog: seq<CatalogProduct>) returns (matches: OrderedMap<int, Match>)
    ensures matches == InventoryMatches(catalog, q)
  {
    matches := [];
    var i := 0;
    while i < |catalog|
      invariant 0 <= i <= |catalog|
      invariant matches == CanonicalMatches(catalog[..i], q)
    {
      assert catalog[..i + 1][..i] == catalog[..i];
      var row := catalog[i];
      if row.sku in Keys(q) && row.fbaEnabled {
        matches := Put(matches, row.entityId, Match(row.sku, Get(q, row.sku).GetOr(0)));
      }
      i := i + 1;
    }
    assert catalog[..i] == catalog;
    ghost var canonical := matches;
    i := 0;
    while i < |catalog|
      invariant 0 <= i <= |catalog|
      invariant matches == MerchantMatches(canonical, catalog[..i], q)
    {
      assert catalog[..i + 1][..i] == catalog[..i];
      var row := catalog[i];
      if row.merchantSku.Some? && row.merchantSku.value in Keys(q) {
        matches := Put(matches, row.entityId, Match(row.sku, Get(q, row.merchantSku.value).GetOr(0)));
      }
      i := i + 1;
    }
    assert catalog[..i] == catalog;
  }

  /** The incremental write: the quantity only; the in-stock flag is left as it was. */
  function ApplyQtyWrites(items: map<int, StockItem>, matches: OrderedMap<int, Match>): map<int, StockItem>
  {
    if matches == [] then items
    else
      var m := matches[|matches| - 1];
      var w := ApplyQtyWrites(items, matches[..|matches| - 1]);
      w[m.0 := StockOf(w, m.0).(qty := m.1.qty)]
  }

  /** No incremental write changes a stock item's in-stock flag, and unmatched entities keep their stock. */
  lemma {:induction false} QtyWritesKeepStockFlag(items: map<int, StockItem>, matches: OrderedMap<int, Match>, entityId: int)
    ensures StockOf(ApplyQtyWrites(items, matches), entityId).isInStock == StockOf(items, entityId).isInStock
    ensures entityId !in Keys(matches) ==> StockOf(ApplyQtyWrites(items, matches), entityId) == StockOf(items, entityId)
  {
    if matches != [] {
      QtyWritesKeepStockFlag(items, matches[..|matches| - 1], entityId);
      assert Keys(matches) == Keys(matches[..|matches| - 1]) + [matches[|matches| - 1].0];
    }
  }

  method WriteMatches(matches: OrderedMap<int, Match>, stock: StockRegistry)
    modifies stock
    ensures stock.items == ApplyQtyWrites(old(stock.items), matches)
  {
    var i := 0;
    while i < |matches|
      invariant 0 <= i <= |matches|
      invariant stock.items == ApplyQtyWrites(old(stock.items), matches[..i])
    {
      assert matches[..i + 1][..i] == matches[..i];
      var stockItem := stock.StockItemOf(matches[i].0);
      stockItem := stockItem.(qty := matches[i].1.qty);
      stock.UpdateStockItem(matches[i].0, stockItem);
      i := i + 1;
    }
    assert matches[..i] == matches;
  }

  /** The Magento SKUs of the matches, in match order. */
  function MatchedSkus(matches: OrderedMap<int, Match>): (r: seq<string>)
    ensures |r| == |matches|
    ensures forall i :: 0 <= i < |matches| ==> r[i] == matches[i].1.sku
  {
    if matches == [] then [] else MatchedSkus(matches[..|matches| - 1]) + [matches[|matches| - 1].1.sku]
  }

  /** The missing-products notice lists each returned SKU that is no match's Magento SKU, in returned order. */
  function MissingSkus(q: OrderedMap<string, int>, updated: seq<string>): seq<string>
  {
    if q == [] then []
    else
      var k := q[|q| - 1].0;
      MissingSkus(q[..|q| - 1], updated) + (if k in updated then [] else [k])
  }

  lemma {:induction false} MissingSkusExact(q: OrderedMap<string, int>, updated: seq<string>, sku: string)
    ensures sku in MissingSkus(q, updated) <==> sku in Keys(q) && sku !in updated
  {
    if q != [] {
      var init := q[..|q| - 1];
      MissingSkusExact(init, updated, sku);
      assert Keys(q) == Keys(init) + [q[|q| - 1].0];
    }
  }

  /**
   * A SKU Amazon returns for a product known only by its merchant SKU is
   * written to that product and still listed as missing.
   */
  lemma AltMatchedStillListedMissing()
    ensures
      var catalog := [CatalogProduct(1, "ABC", true, Some("AMZ-1"))];
      var q := [("AMZ-1", 5)];
      InventoryMatches(catalog, q) == [(1, Match("ABC", 5))] &&
      MissingSkus(q, MatchedSkus(InventoryMatches(catalog, q))) == ["AMZ-1"]
  {
    var catalog := [CatalogProduct(1, "ABC", true, Some("AMZ-1"))];
    var q := [("AMZ-1", 5)];
    assert catalog[..0] == [];
    assert q[..0] == [];
    assert Keys(q) == ["AMZ-1"];
    assert CanonicalMatches(catalog, q) == [];
  }

  /** createMissingInventoryNotifications. */
  method CreateMissingInventoryNotifications(q: OrderedMap<string, int>, matches: OrderedMap<int, Match>, notifier: Notifier)
    modifies notifier
    ensures MissingSkus(q, MatchedSkus(matches)) != [] ==>
      notifier.notices == old(notifier.notices) + [MissingCatalogProducts(MissingSkus(q, MatchedSkus(matches)))]
    ensures MissingSkus(q, MatchedSkus(matches)) == [] ==> notifier.notices == old(notifier.notices)
  {
    var updated: seq<string> := [];
    var i := 0;
    while i < |matches|
      invariant 0 <= i <= |matches|
      invariant updated == MatchedSkus(matches[..i])
    {
      assert matches[..i + 1][..i] == matches[..i];
      updated := updated + [matches[i].1.sku];
      i := i + 1;
    }
    assert matches[..i] == matches;
    var skus: seq<string> := [];
    i := 0;
    while i < |q|
      invariant 0 <= i <= |q|
      invariant skus == MissingSkus(q[..i], updated)
    {
      assert q[..i + 1][..i] == q[..i];
      if q[i].0 !in updated {
        skus := skus + [q[i].0];
      }
      i := i + 1;
    }
    assert q[..i] == q;
    if skus != [] {
      notifier.AddNotice(MissingCatalogProducts(skus));
    }
  }

  /** The notices the incremental processing of a supply list raises. */
  function MissingNotices(q: OrderedMap<string, int>, catalog: seq<CatalogProduct>): seq<Notice>
  {
    var missing := MissingSkus(q, MatchedSkus(InventoryMatches(catalog, q)));
    if q == [] || missing == [] then [] else [MissingCatalogProducts(missing)]
  }

  /**
   * updateInventoryProcessStatus: the returned quantities are written to
   * every matched product, and returned SKUs without a canonical match
   * are reported.
   */
  method UpdateInventoryProcessStatus(records: seq<SupplyRecord>, catalog: seq<CatalogProduct>, stock: StockRegistry, notifier: Notifier)
    modifies stock, notifier
    ensures stock.items == ApplyQtyWrites(old(stock.items), InventoryMatches(catalog, AllSkuQuantities(records)))
    ensures notifier.notices == old(notifier.notices) + MissingNotices(AllSkuQuantities(records), catalog)
  {
    var q := GetSkuQuantities(records);
    if q != [] {
      var matches := GetMagentoInventoryData(q, catalog);
      if matches != [] {
        WriteMatches(matches, stock);
      }
      CreateMissingInventoryNotifications(q, matches, notifier);
    } else {
      assert CanonicalMatches(catalog, []) == [] by { CanonicalMatchesEmpty(catalog); }
      MerchantMatchesEmpty(catalog);
    }
  }

  lemma {:induction false} CanonicalMatchesEmpty(catalog: seq<CatalogProduct>)
    ensures CanonicalMatches(catalog, []) == []
  {
    if catalog != [] {
      CanonicalMatchesEmpty(catalog[..|catalog| - 1]);
    }
  }

  lemma {:induction false} MerchantMatchesEmpty(catalog: seq<CatalogProduct>)
    ensures MerchantMatches([], catalog, []) == []
  {
    if catalog != [] {
      MerchantMatchesEmpty(catalog[..|catalog| - 1]);
    }
  }

  /** Where the incremental sync asks: by the stored token if it is truthy, else for the last day's changes. */
  datatype InventoryCall = ByToken(token: string) | ByStartTime(startTime: string)

  function IncrementalCall(storedToken: string, startTime: string): (r: InventoryCall)
    ensures Truthy(storedToken) ==> r == ByToken(storedToken)
    ensures !Truthy(storedToken) ==> r == ByStartTime(startTime)
  {
    if Truthy(storedToken) then ByToken(storedToken) else ByStartTime(startTime)
  }

  function IncrementalResponse(c: ScopeConfig, call: InventoryCall, listClient: SupplyClient, tokenClient: TokenClient): Option<SupplyResponse>
  {
    match call
    case ByToken(token) => GetListInventorySupplyByNextToken(c, token, tokenClient)
    case ByStartTime(startTime) => GetFulfillmentInventoryList(c, [], startTime, listClient)
  }

  /** The token stored after a run: the response's next token if truthy, else "" (also without a response). */
  function NextStoredToken(response: Option<SupplyResponse>): (t: string)
    ensures response.Some? && Truthy(response.value.nextToken) ==> t == response.value.nextToken
    ensures !(response.Some? && Truthy(response.value.nextToken)) ==> t == ""
  {
    if response.Some? && Truthy(response.value.nextToken) then response.value.nextToken else ""
  }

  /**
   * cronCurrentInventoryStatus: ask by the stored token or for the last
   * day (`startTime` is the caller's clock minus a day), apply a non-empty
   * supply list, and store the next token. Returns the call made.
   */
  method CronCurrentInventoryStatus(c: ScopeConfig, cursors: VariableStore, catalog: seq<CatalogProduct>,
                                    stock: StockRegistry, notifier: Notifier, startTime: string,
                                    listClient: SupplyClient, tokenClient: TokenClient)
    returns (call: InventoryCall)
    modifies cursors, stock, notifier
    ensures call == IncrementalCall(old(cursors.InventoryNextToken()), startTime)
    ensures
      var response := IncrementalResponse(c, call, listClient, tokenClient);
      var token := NextStoredToken(response);
      cursors.rows == old(cursors.rows)[InventorySyncToken := Variable(InventorySyncToken, Text(token), Text(token))]
      && (response.Some? && response.value.members != [] ==>
            stock.items == ApplyQtyWrites(old(stock.items), InventoryMatches(catalog, AllSkuQuantities(response.value.members)))
            && notifier.notices == old(notifier.notices) + MissingNotices(AllSkuQuantities(response.value.members), catalog))
      && (!(response.Some? && response.value.members != []) ==>
            stock.items == old(stock.items) && notifier.notices == old(notifier.notices))
  {
    var response: Option<SupplyResponse>;
    var storedToken := cursors.InventoryNextToken();
    if Truthy(storedToken) {
      call := ByToken(storedToken);
      response := GetListInventorySupplyByNextToken(c, storedToken, tokenClient);
    } else {
      call := ByStartTime(startTime);
      response := GetFulfillmentInventoryList(c, [], startTime, listClient);
    }
    if response.Some? {
      var supplyList := response.value.members;
      if supplyList != [] {
        UpdateInventoryProcessStatus(supplyList, catalog, stock, notifier);
      }
      var nextToken := response.value.nextToken;
      if Truthy(nextToken) {
        cursors.SetInventoryNextToken(nextToken);
      } else {
        cursors.SetInventoryNextToken("");
      }
    } else {
      cursors.SetInventoryNextToken("");
    }
  }

  /** After the admin reset the next full sync passes its guard and reads from the first row. */
  lemma ResetRestartsFullSync(rows: map<string, Variable>)
    ensures
      var reset := rows[InventorySyncRunning := Variable(InventorySyncRunning, Flag(false), Flag(false))]
                       [InventorySyncPage := Variable(InventorySyncPage, Number(0), Number(0))];
      !ValueTruthy(if InventorySyncRunning in reset then Some(reset[InventorySyncRunning].plain) else None)
      && reset[InventorySyncPage].plain == Number(0)
  {
  }
}
