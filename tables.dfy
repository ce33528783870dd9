/**
 * The tables of the stock ledger (inventory-system/backend/main.py) as values, and the
 * effect of the product, stock-in, overwrite and shipment routes on them as functions of
 * the old tables and the request. The class `Store` in routes.dfy runs the routes step by
 * step; each of its methods that has a function here is proved to produce exactly that
 * function's result. The lemmas here state what the results mean.
 */
module Tables {
  import opened Wrappers

  // ---------------------------------------------------------------------------
  // Rows
  // ---------------------------------------------------------------------------

  datatype Customer = Customer(name: string, contactInfo: Option<string>)

  datatype Product = Product(skuCode: string, name: string, description: Option<string>)

  /** A (customer, product) pair: the key of an inventory row, and an entry of the link table. */
  datatype Key = Key(customerId: int, productId: int)

  /** An inventory row without its pair; `id` is the row's primary key. */
  datatype Row = Row(id: int, quantity: int, targetStock: int, safetyStock: int)

  /** The inventory table: at most one row per (customer, product) pair. */
  type Rows = map<Key, Row>

  /** The remark of an inbound row: free text, or the manual-adjustment note of an overwrite. */
  datatype Remark = Note(text: string) | ManualAdjustment(before: int, after: int)

  datatype Inbound = Inbound(customerId: int, productId: int, quantity: int, remarks: Remark)

  /** A shipment row. It records the selling customer only, never the stock source. */
  datatype Shipment = Shipment(customerId: int, productId: int, quantity: int,
                               shipmentDate: string, rmaTicket: Option<string>)

  datatype ShipmentRecord = ShipmentRecord(id: int, shipment: Shipment)

  // ---------------------------------------------------------------------------
  // Request bodies
  // ---------------------------------------------------------------------------

  /** A field of a JSON request body: left out of the body, sent as null, or sent with a value. */
  datatype BodyField<T> = Omitted | Null | Given(value: T)

  /**
   * The stock-in body. Its thresholds are declared with the default 0, so an omitted
   * threshold parses as 0 and only an explicit null parses as None (see `ParsedThreshold`).
   */
  datatype InventoryCreate = InventoryCreate(customerId: int, productId: int, quantity: int,
                                             targetStock: BodyField<int>, safetyStock: BodyField<int>,
                                             remarks: Option<string>)

  datatype InventoryUpdate = InventoryUpdate(quantity: Option<int>, targetStock: Option<int>,
                                             safetyStock: Option<int>)

  datatype ShipmentCreate = ShipmentCreate(customerId: int, productId: int, quantity: int,
                                           shipmentDate: string, rmaTicket: Option<string>,
                                           stockSourceCustomerId: Option<int>)

  datatype ShipmentItem = ShipmentItem(productId: int, quantity: int, stockSourceCustomerId: Option<int>)

  datatype BatchShipmentCreate = BatchShipmentCreate(customerId: int, shipmentDate: string,
                                                     rmaTicket: Option<string>, items: seq<ShipmentItem>)

  datatype ShipmentUpdate = ShipmentUpdate(quantity: Option<int>, shipmentDate: Option<string>,
                                           rmaTicket: Option<string>)

  // ---------------------------------------------------------------------------
  // Errors: one constructor per HTTPException the routes raise
  // ---------------------------------------------------------------------------

  datatype Entity = CustomerEntity | ProductEntity | InventoryEntity | ShipmentEntity | LinkEntity

  datatype ApiError =
    | NotFound(entity: Entity)                                        // 404
    | SkuExists                                                       // 400, create
    | NewSkuExists                                                    // 400, update
    | NoSourceInventory(sourceId: int)                                // 400, single shipment
    | InsufficientInventory(current: int)                             // 400, single shipment
    | NoItemInventory(productId: int, sourceId: int)                  // 400, batch item
    | InsufficientItemInventory(productId: int, sourceId: int, current: int)  // 400, batch item
    | RelatedInventoryMissing                                         // 400, shipment edit
    | InsufficientToIncrease                                          // 400, shipment edit

  // ---------------------------------------------------------------------------
  // Table invariants
  // ---------------------------------------------------------------------------

  /** The quantity held for a pair; a pair without a row holds nothing. */
  function Held(rows: Rows, k: Key): int {
    if k in rows then rows[k].quantity else 0
  }

  ghost predicate RowIdsDistinct(rows: Rows) {
    forall k1, k2 :: k1 in rows && k2 in rows && rows[k1].id == rows[k2].id ==> k1 == k2
  }

  ghost predicate RowIdsBelow(rows: Rows, bound: int) {
    forall k :: k in rows ==> rows[k].id < bound
  }

  ghost predicate SkusUnique(products: map<int, Product>) {
    forall a, b :: a in products && b in products && products[a].skuCode == products[b].skuCode ==> a == b
  }

  predicate SkuTaken(products: map<int, Product>, sku: string) {
    exists id :: id in products && products[id].skuCode == sku
  }

  // ---------------------------------------------------------------------------
  // Products: SKU uniqueness
  // ---------------------------------------------------------------------------

  /** create_product: refused when the SKU is already in the catalogue. */
  function AddedProduct(products: map<int, Product>, freshId: int, p: Product): (r: Result<map<int, Product>, ApiError>)
    requires freshId !in products
    ensures r.Err? <==> SkuTaken(products, p.skuCode)
    ensures r.Err? ==> r.error == SkuExists
    ensures r.Ok? ==> r.value.Keys == products.Keys + {freshId} && r.value[freshId] == p
    ensures r.Ok? ==> forall id :: id in products ==> r.value[id] == products[id]
    ensures SkusUnique(products) && r.Ok? ==> SkusUnique(r.value)
  {
    if SkuTaken(products, p.skuCode) then Err(SkuExists) else Ok(products[freshId := p])
  }

  /** update_product: unknown id is 404; a changed SKU that another product has is refused; keeping the SKU is allowed. */
  function UpdatedProduct(products: map<int, Product>, id: int, p: Product): (r: Result<map<int, Product>, ApiError>)
    ensures id !in products ==> r == Err(NotFound(ProductEntity))
    ensures id in products && p.skuCode == products[id].skuCode ==> r.Ok?
    ensures id in products && p.skuCode != products[id].skuCode ==>
              (r.Err? <==> SkuTaken(products, p.skuCode)) && (r.Err? ==> r.error == NewSkuExists)
    ensures r.Ok? ==> id in products && r.value == products[id := p]
    ensures SkusUnique(products) && r.Ok? ==> SkusUnique(r.value)
  {
    if id !in products then Err(NotFound(ProductEntity))
    else if p.skuCode != products[id].skuCode && SkuTaken(products, p.skuCode) then Err(NewSkuExists)
    else Ok(products[id := p])
  }

  // ---------------------------------------------------------------------------
  // Stock-in and overwrite
  // ---------------------------------------------------------------------------

  /** `remarks or "Initialization"`: a missing or empty remark falls back. */
  function InboundRemark(remarks: Option<string>): (r: Remark)
    ensures r.Note? && r.text != ""
    ensures remarks.Some? && remarks.value != "" ==> r == Note(remarks.value)
    ensures remarks.None? || remarks.value == "" ==> r == Note("Initialization")
  {
    if remarks.Some? && remarks.value != "" then Note(remarks.value) else Note("Initialization")
  }

  /** The inbound row a stock-in appends. */
  function StockInEntry(data: InventoryCreate): (e: Inbound)
    ensures Key(e.customerId, e.productId) == Key(data.customerId, data.productId)
    ensures e.quantity == data.quantity
    ensures e.remarks == InboundRemark(data.remarks)
    ensures e.remarks.Note? && e.remarks.text != ""
  {
    Inbound(data.customerId, data.productId, data.quantity, InboundRemark(data.remarks))
  }

  /** A threshold of the stock-in body as the route sees it: the declared default 0 fills an omitted field. */
  function ParsedThreshold(f: BodyField<int>): Option<int> {
    match f
    case Omitted => Some(0)
    case Null => None
    case Given(v) => Some(v)
  }

  /**
   * create_inventory_entry on the inventory table: add to the pair's row, or create it.
   * A threshold is written whenever it is not None after parsing, so an omitted one resets
   * an existing row's threshold to 0; only an explicit null keeps it.
   */
  function StockInRows(rows: Rows, freshId: int, data: InventoryCreate): (r: Rows)
    ensures var k := Key(data.customerId, data.productId);
      && r.Keys == rows.Keys + {k}
      && Held(r, k) == Held(rows, k) + data.quantity
      && r[k].id == (if k in rows then rows[k].id else freshId)
      && (data.targetStock.Given? ==> r[k].targetStock == data.targetStock.value)
      && (data.targetStock.Omitted? ==> r[k].targetStock == 0)
      && (data.targetStock.Null? ==> r[k].targetStock == if k in rows then rows[k].targetStock else 0)
      && (data.safetyStock.Given? ==> r[k].safetyStock == data.safetyStock.value)
      && (data.safetyStock.Omitted? ==> r[k].safetyStock == 0)
      && (data.safetyStock.Null? ==> r[k].safetyStock == if k in rows then rows[k].safetyStock else 0)
      && forall k' :: k' in rows && k' != k ==> r[k'] == rows[k']
  {
    var k := Key(data.customerId, data.productId);
    var target, safety := ParsedThreshold(data.targetStock), ParsedThreshold(data.safetyStock);
    if k in rows then
      var row := rows[k];
      rows[k := row.(quantity := row.quantity + data.quantity,
                     targetStock := target.GetOr(row.targetStock),
                     safetyStock := safety.GetOr(row.safetyStock))]
    else
      rows[k := Row(freshId, data.quantity, target.GetOr(0), safety.GetOr(0))]
  }

  /**
   * The stock-in form sends no thresholds, so a stock-in from it to an existing pair
   * resets both of that row's thresholds to 0 while adding the quantity.
   */
  lemma FormStockInResetsThresholds(rows: Rows, freshId: int, customerId: int, productId: int,
                                    quantity: int, remarks: string)
    requires Key(customerId, productId) in rows
    ensures var r := StockInRows(rows, freshId, InventoryCreate(customerId, productId, quantity, Omitted, Omitted, Some(remarks)));
      var row := rows[Key(customerId, productId)];
      r[Key(customerId, productId)] == Row(row.id, row.quantity + quantity, 0, 0)
  {
  }

  /** update_inventory_quantity on one row: each supplied field is overwritten. */
  function Overwritten(row: Row, data: InventoryUpdate): (r: Row)
    ensures r.id == row.id
    ensures data.quantity.Some? ==> r.quantity == data.quantity.value
    ensures data.quantity.None? ==> r.quantity == row.quantity
    ensures data.targetStock.Some? ==> r.targetStock == data.targetStock.value
    ensures data.targetStock.None? ==> r.targetStock == row.targetStock
    ensures data.safetyStock.Some? ==> r.safetyStock == data.safetyStock.value
    ensures data.safetyStock.None? ==> r.safetyStock == row.safetyStock
  {
    row.(quantity := data.quantity.GetOr(row.quantity),
         targetStock := data.targetStock.GetOr(row.targetStock),
         safetyStock := data.safetyStock.GetOr(row.safetyStock))
  }

  /** The adjustment rows an overwrite appends to the inbound history. */
  function AdjustmentLog(k: Key, row: Row, data: InventoryUpdate): (log: seq<Inbound>)
    ensures |log| <= 1
    ensures |log| == 1 <==> data.quantity.Some? && data.quantity.value != row.quantity
    ensures |log| == 1 ==> log[0].customerId == k.customerId && log[0].productId == k.productId
    ensures |log| == 1 ==> row.quantity + log[0].quantity == Overwritten(row, data).quantity
    ensures |log| == 1 ==> log[0].remarks == ManualAdjustment(row.quantity, data.quantity.value)
  {
    if data.quantity.Some? && data.quantity.value - row.quantity != 0 then
      [Inbound(k.customerId, k.productId, data.quantity.value - row.quantity,
               ManualAdjustment(row.quantity, data.quantity.value))]
    else []
  }

  /** Sum of the inbound quantities recorded for a pair. */
  function InboundTotal(log: seq<Inbound>, k: Key): int {
    if log == [] then 0
    else (if Key(log[0].customerId, log[0].productId) == k then log[0].quantity else 0) + InboundTotal(log[1..], k)
  }

  lemma {:induction false} InboundTotalAppend(log: seq<Inbound>, more: seq<Inbound>, k: Key)
    ensures InboundTotal(log + more, k) == InboundTotal(log, k) + InboundTotal(more, k)
  {
    if log == [] {
      assert log + more == more;
    } else {
      assert (log + more)[1..] == log[1..] + more;
      InboundTotalAppend(log[1..], more, k);
    }
  }

  /** Stock-in moves a pair's quantity and its inbound total by the same amount. */
  lemma StockInKeepsBalance(rows: Rows, freshId: int, log: seq<Inbound>, data: InventoryCreate, k: Key)
    ensures Held(StockInRows(rows, freshId, data), k) - InboundTotal(log + [StockInEntry(data)], k)
         == Held(rows, k) - InboundTotal(log, k)
  {
    InboundTotalAppend(log, [StockInEntry(data)], k);
    assert [StockInEntry(data)][1..] == [];
  }

  /** An overwrite moves a pair's quantity and its inbound total by the same amount. */
  lemma OverwriteKeepsBalance(rows: Rows, log: seq<Inbound>, k0: Key, data: InventoryUpdate, k: Key)
    requires k0 in rows
    ensures Held(rows[k0 := Overwritten(rows[k0], data)], k) - InboundTotal(log + AdjustmentLog(k0, rows[k0], data), k)
         == Held(rows, k) - InboundTotal(log, k)
  {
    var adj := AdjustmentLog(k0, rows[k0], data);
    InboundTotalAppend(log, adj, k);
    if |adj| == 1 {
      assert adj[1..] == [];
    }
  }

  // ---------------------------------------------------------------------------
  // Shipments: source defaulting, debits and the batch
  // ---------------------------------------------------------------------------

  /**
   * `stock_source_customer_id or customer_id`: a missing source and a source of 0
   * both fall back to the selling customer.
   */
  function SourceOf(stockSource: Option<int>, selling: int): (id: int)
    ensures id != selling ==> stockSource == Some(id) && id != 0
    ensures id == 0 ==> selling == 0
    ensures stockSource.Some? && stockSource.value != 0 ==> id == stockSource.value
  {
    if stockSource.Some? && stockSource.value != 0 then stockSource.value else selling
  }

  /** The inventory row a batch item is debited from. */
  function ItemKey(selling: int, item: ShipmentItem): Key {
    Key(SourceOf(item.stockSourceCustomerId, selling), item.productId)
  }

  /** One step of the batch loop: check the row at the item's source and debit it. */
  function DebitItem(rows: Rows, selling: int, item: ShipmentItem): (r: Result<Rows, ApiError>)
    ensures var k := ItemKey(selling, item);
      r.Ok? <==> k in rows && rows[k].quantity >= item.quantity
    ensures var k := ItemKey(selling, item);
      k !in rows ==> r == Err(NoItemInventory(item.productId, k.customerId))
    ensures var k := ItemKey(selling, item);
      k in rows && rows[k].quantity < item.quantity ==>
        r == Err(InsufficientItemInventory(item.productId, k.customerId, rows[k].quantity))
    ensures var k := ItemKey(selling, item);
      r.Ok? ==> r.value == rows[k := rows[k].(quantity := rows[k].quantity - item.quantity)]
  {
    var k := ItemKey(selling, item);
    if k !in rows then Err(NoItemInventory(item.productId, k.customerId))
    else if rows[k].quantity < item.quantity then Err(InsufficientItemInventory(item.productId, k.customerId, rows[k].quantity))
    else Ok(rows[k := rows[k].(quantity := rows[k].quantity - item.quantity)])
  }

  /**
   * create_batch_shipment on the inventory table: the items are checked and debited in
   * order, each against what the earlier items left; the first failure is the result.
   */
  function DebitAll(rows: Rows, selling: int, items: seq<ShipmentItem>): (r: Result<Rows, ApiError>)
    ensures r.Err? ==> r.error.NoItemInventory? || r.error.InsufficientItemInventory?
    decreases |items|
  {
    if items == [] then Ok(rows)
    else
      match DebitItem(rows, selling, items[0])
      case Err(e) => Err(e)
      case Ok(next) => DebitAll(next, selling, items[1..])
  }

  /** A failed batch names the product of one of its items. */
  lemma {:induction false} DebitAllErrorNamesItem(rows: Rows, selling: int, items: seq<ShipmentItem>)
    requires DebitAll(rows, selling, items).Err?
    ensures exists j :: 0 <= j < |items| && items[j].productId == DebitAll(rows, selling, items).error.productId
    decreases |items|
  {
    var e := DebitAll(rows, selling, items).error;
    if DebitItem(rows, selling, items[0]).Err? {
      assert items[0].productId == e.productId;
    } else {
      DebitAllErrorNamesItem(DebitItem(rows, selling, items[0]).value, selling, items[1..]);
      var j :| 0 <= j < |items[1..]| && items[1..][j].productId == e.productId;
      assert items[j + 1].productId == e.productId;
    }
  }

  /** Total quantity the items ask of one row. */
  function Demand(selling: int, items: seq<ShipmentItem>, k: Key): int {
    if items == [] then 0
    else (if ItemKey(selling, items[0]) == k then items[0].quantity else 0) + Demand(selling, items[1..], k)
  }

  /** Item j finds its row, holding enough after the items before it were debited. */
  predicate Fits(rows: Rows, selling: int, items: seq<ShipmentItem>, j: int)
    requires 0 <= j < |items|
  {
    var k := ItemKey(selling, items[j]);
    k in rows && rows[k].quantity - Demand(selling, items[..j], k) >= items[j].quantity
  }

  /**
   * A failing batch reports its first item that does not fit: that item's product, its
   * source, and (when the row exists) what the earlier items left in that row.
   */
  lemma {:induction false} DebitAllFirstFailure(rows: Rows, selling: int, items: seq<ShipmentItem>, j: int)
    requires 0 <= j < |items|
    requires forall i :: 0 <= i < j ==> Fits(rows, selling, items, i)
    requires !Fits(rows, selling, items, j)
    ensures var k := ItemKey(selling, items[j]);
      DebitAll(rows, selling, items) ==
        if k !in rows then Err(NoItemInventory(items[j].productId, k.customerId))
        else Err(InsufficientItemInventory(items[j].productId, k.customerId,
                                           rows[k].quantity - Demand(selling, items[..j], k)))
    decreases j
  {
    var x, rest := items[0], items[1..];
    assert items[..0] == [];
    if j > 0 {
      assert Fits(rows, selling, items, 0);
      var next := DebitItem(rows, selling, x).value;
      forall i | 0 <= i < |rest|
        ensures Fits(next, selling, rest, i) <==> Fits(rows, selling, items, i + 1)
      {
        assert items[..i + 1] == [x] + rest[..i];
        assert ([x] + rest[..i])[1..] == rest[..i];
        assert items[i + 1] == rest[i];
      }
      forall i | 0 <= i < j - 1 ensures Fits(next, selling, rest, i) {
        assert Fits(rows, selling, items, i + 1);
      }
      DebitAllFirstFailure(next, selling, rest, j - 1);
      assert items[..j] == [x] + rest[..j - 1];
      assert ([x] + rest[..j - 1])[1..] == rest[..j - 1];
    }
  }

  /** On success every row falls by exactly the sum of the items aimed at it; nothing else changes. */
  lemma {:induction false} DebitAllTotals(rows: Rows, selling: int, items: seq<ShipmentItem>)
    requires DebitAll(rows, selling, items).Ok?
    ensures var r := DebitAll(rows, selling, items).value;
      && r.Keys == rows.Keys
      && forall k :: k in rows ==> r[k] == rows[k].(quantity := rows[k].quantity - Demand(selling, items, k))
    decreases |items|
  {
    if items != [] {
      var next := DebitItem(rows, selling, items[0]).value;
      DebitAllTotals(next, selling, items[1..]);
    }
  }

  /** The batch succeeds exactly when every item fits against what the earlier items left. */
  lemma {:induction false} DebitAllOkIff(rows: Rows, selling: int, items: seq<ShipmentItem>)
    ensures DebitAll(rows, selling, items).Ok? <==> forall j :: 0 <= j < |items| ==> Fits(rows, selling, items, j)
    decreases |items|
  {
    if items != [] {
      var x, rest := items[0], items[1..];
      assert items[..0] == [];
      assert Fits(rows, selling, items, 0) <==> DebitItem(rows, selling, x).Ok?;
      match DebitItem(rows, selling, x)
      case Err(_) =>
      case Ok(next) =>
        DebitAllOkIff(next, selling, rest);
        forall j | 0 <= j < |rest|
          ensures Fits(next, selling, rest, j) <==> Fits(rows, selling, items, j + 1)
        {
          assert items[..j + 1] == [x] + rest[..j];
          assert ([x] + rest[..j])[1..] == rest[..j];
          assert items[j + 1] == rest[j];
        }
        if forall j :: 0 <= j < |rest| ==> Fits(next, selling, rest, j) {
          forall j | 0 <= j < |items| ensures Fits(rows, selling, items, j) {
            if j > 0 {
              assert Fits(next, selling, rest, j - 1);
            }
          }
        }
    }
  }

  /** No item of the list is aimed at the row. */
  predicate Untouched(selling: int, items: seq<ShipmentItem>, k: Key) {
    forall j :: 0 <= j < |items| ==> ItemKey(selling, items[j]) != k
  }

  lemma {:induction false} DemandUntouched(selling: int, items: seq<ShipmentItem>, k: Key)
    requires Untouched(selling, items, k)
    ensures Demand(selling, items, k) == 0
    decreases |items|
  {
    if items != [] {
      DemandUntouched(selling, items[1..], k);
    }
  }

  lemma {:induction false} DemandNonNegative(selling: int, items: seq<ShipmentItem>, k: Key)
    requires forall j :: 0 <= j < |items| ==> items[j].quantity >= 0
    ensures Demand(selling, items, k) >= 0
    decreases |items|
  {
    if items != [] {
      DemandNonNegative(selling, items[1..], k);
    }
  }

  /** Every row a successful batch touched ends non-negative, whatever the sign of the items. */
  lemma {:induction false} DebitAllLeavesTouchedRowsNonNegative(rows: Rows, selling: int, items: seq<ShipmentItem>)
    requires DebitAll(rows, selling, items).Ok?
    ensures var r := DebitAll(rows, selling, items).value;
      forall j :: 0 <= j < |items| ==> ItemKey(selling, items[j]) in r && r[ItemKey(selling, items[j])].quantity >= 0
    decreases |items|
  {
    if items != [] {
      var x, rest := items[0], items[1..];
      var k0 := ItemKey(selling, x);
      var next := DebitItem(rows, selling, x).value;
      var r := DebitAll(rows, selling, items).value;
      assert r == DebitAll(next, selling, rest).value;
      DebitAllLeavesTouchedRowsNonNegative(next, selling, rest);
      DebitAllTotals(next, selling, rest);
      forall j | 0 <= j < |items|
        ensures ItemKey(selling, items[j]) in r && r[ItemKey(selling, items[j])].quantity >= 0
      {
        if j > 0 {
          assert items[j] == rest[j - 1];
        } else if !Untouched(selling, rest, k0) {
          var i :| 0 <= i < |rest| && ItemKey(selling, rest[i]) == k0;
        } else {
          DemandUntouched(selling, rest, k0);
        }
      }
    }
  }

  /** With non-negative item quantities no row grows. */
  lemma DebitAllNeverRaises(rows: Rows, selling: int, items: seq<ShipmentItem>)
    requires DebitAll(rows, selling, items).Ok?
    requires forall j :: 0 <= j < |items| ==> items[j].quantity >= 0
    ensures var r := DebitAll(rows, selling, items).value;
      forall k :: k in rows ==> k in r && r[k].quantity <= rows[k].quantity
  {
    DebitAllTotals(rows, selling, items);
    forall k | k in rows {
      DemandNonNegative(selling, items, k);
    }
  }

  /** The backend never checks the sign: a negative item passes the check and raises the row. */
  lemma NegativeItemRaisesStock()
    ensures var rows := map[Key(1, 7) := Row(1, 0, 0, 0)];
      DebitAll(rows, 1, [ShipmentItem(7, -5, None)]) == Ok(map[Key(1, 7) := Row(1, 5, 0, 0)])
  {
    var rows := map[Key(1, 7) := Row(1, 0, 0, 0)];
    var items := [ShipmentItem(7, -5, None)];
    assert items[1..] == [];
    assert ItemKey(1, items[0]) == Key(1, 7);
    assert rows[Key(1, 7) := Row(1, 5, 0, 0)] == map[Key(1, 7) := Row(1, 5, 0, 0)];
  }

  /** The shipment row a batch item creates: selling customer, batch date and RMA. */
  function ShipmentFor(req: BatchShipmentCreate, item: ShipmentItem): (s: Shipment)
    ensures ShipmentKey(s) == Key(req.customerId, item.productId)
    ensures s.quantity == item.quantity
  {
    Shipment(req.customerId, item.productId, item.quantity, req.shipmentDate, req.rmaTicket)
  }

  /** A batch without items is accepted: no row is debited and no shipment is created. */
  lemma EmptyBatchCommitsNothing(rows: Rows, req: BatchShipmentCreate)
    requires req.items == []
    ensures DebitAll(rows, req.customerId, req.items) == Ok(rows)
    ensures BatchShipments(req, req.items) == []
  {
  }

  /** The shipment rows of a batch, in item order. */
  function BatchShipments(req: BatchShipmentCreate, items: seq<ShipmentItem>): (ss: seq<Shipment>)
    ensures |ss| == |items|
    ensures forall i :: 0 <= i < |items| ==>
      && ss[i].customerId == req.customerId
      && ss[i].productId == items[i].productId
      && ss[i].quantity == items[i].quantity
      && ss[i].shipmentDate == req.shipmentDate
      && ss[i].rmaTicket == req.rmaTicket
    decreases |items|
  {
    if items == [] then [] else [ShipmentFor(req, items[0])] + BatchShipments(req, items[1..])
  }

  /** Shipment rows given consecutive ids from `firstId`. */
  function Numbered(firstId: int, ss: seq<Shipment>): (r: seq<ShipmentRecord>)
    ensures |r| == |ss|
    ensures forall i :: 0 <= i < |ss| ==> r[i].id == firstId + i && r[i].shipment == ss[i]
  {
    seq(|ss|, i requires 0 <= i < |ss| => ShipmentRecord(firstId + i, ss[i]))
  }

  /** The shipment table entries for rows numbered from `firstId`. */
  function NumberedTable(firstId: int, ss: seq<Shipment>): (t: map<int, Shipment>)
    ensures forall id :: id in t <==> firstId <= id < firstId + |ss|
    ensures forall i :: 0 <= i < |ss| ==> t[firstId + i] == ss[i]
    decreases |ss|
  {
    if ss == [] then map[] else NumberedTable(firstId + 1, ss[1..])[firstId := ss[0]]
  }

  // ---------------------------------------------------------------------------
  // The single-shipment route
  // ---------------------------------------------------------------------------

  function SingleItem(data: ShipmentCreate): ShipmentItem {
    ShipmentItem(data.productId, data.quantity, data.stockSourceCustomerId)
  }

  /** The shipment row create_shipment stores: everything but the stock source. */
  function SingleShipment(data: ShipmentCreate): Shipment {
    Shipment(data.customerId, data.productId, data.quantity, data.shipmentDate, data.rmaTicket)
  }

  /** create_shipment on the inventory table. */
  function DebitSingle(rows: Rows, data: ShipmentCreate): (r: Result<Rows, ApiError>)
    ensures var k := Key(SourceOf(data.stockSourceCustomerId, data.customerId), data.productId);
      && (r.Ok? <==> k in rows && rows[k].quantity >= data.quantity)
      && (k !in rows ==> r == Err(NoSourceInventory(k.customerId)))
      && (k in rows && rows[k].quantity < data.quantity ==> r == Err(InsufficientInventory(rows[k].quantity)))
      && (r.Ok? ==> r.value.Keys == rows.Keys && Held(r.value, k) == Held(rows, k) - data.quantity
                    && r.value[k].id == rows[k].id
                    && forall k' :: k' in rows && k' != k ==> r.value[k'] == rows[k'])
    ensures var k := Key(SourceOf(data.stockSourceCustomerId, data.customerId), data.productId);
      r.Ok? ==> r.value == rows[k := rows[k].(quantity := rows[k].quantity - data.quantity)]
  {
    var k := Key(SourceOf(data.stockSourceCustomerId, data.customerId), data.productId);
    if k !in rows then Err(NoSourceInventory(k.customerId))
    else if rows[k].quantity < data.quantity then Err(InsufficientInventory(rows[k].quantity))
    else Ok(rows[k := rows[k].(quantity := rows[k].quantity - data.quantity)])
  }

  /** The single route behaves as a batch of its one item, up to the wording of the error. */
  lemma SingleIsBatchOfOne(rows: Rows, data: ShipmentCreate)
    ensures DebitSingle(rows, data).Ok? <==> DebitAll(rows, data.customerId, [SingleItem(data)]).Ok?
    ensures DebitSingle(rows, data).Ok? ==>
      DebitSingle(rows, data).value == DebitAll(rows, data.customerId, [SingleItem(data)]).value
  {
    var items := [SingleItem(data)];
    assert items[1..] == [];
  }

  // ---------------------------------------------------------------------------
  // Shipment edit and delete
  // ---------------------------------------------------------------------------

  /** The inventory row an edit or a delete adjusts: the SELLING customer's, as the shipment stores no source. */
  function ShipmentKey(s: Shipment): Key {
    Key(s.customerId, s.productId)
  }

  /** update_shipment on the inventory table. */
  function EditedStock(rows: Rows, s: Shipment, quantity: Option<int>): (r: Result<Rows, ApiError>)
    ensures quantity.None? || quantity.value == s.quantity ==> r == Ok(rows)
    ensures var k := ShipmentKey(s);
      quantity.Some? && quantity.value != s.quantity ==>
        (r.Err? <==> k !in rows || (quantity.value - s.quantity > 0 && rows[k].quantity < quantity.value - s.quantity))
    ensures var k := ShipmentKey(s);
      r.Ok? ==> r.value.Keys == rows.Keys && Held(r.value, k) == Held(rows, k) + s.quantity - quantity.GetOr(s.quantity)
    ensures var k := ShipmentKey(s);
      quantity.Some? && quantity.value != s.quantity && k !in rows ==> r == Err(RelatedInventoryMissing)
    ensures var k := ShipmentKey(s);
      quantity.Some? && k in rows && quantity.value - s.quantity > 0 && rows[k].quantity < quantity.value - s.quantity ==>
        r == Err(InsufficientToIncrease)
    ensures var k := ShipmentKey(s);
      r.Ok? && k in rows ==> r.value[k] == rows[k].(quantity := Held(r.value, k))
    ensures r.Ok? ==> forall k :: k in rows && k != ShipmentKey(s) ==> r.value[k] == rows[k]
  {
    if quantity.Some? && quantity.value != s.quantity then
      var diff := quantity.value - s.quantity;
      var k := ShipmentKey(s);
      if k !in rows then Err(RelatedInventoryMissing)
      else if diff > 0 && rows[k].quantity < diff then Err(InsufficientToIncrease)
      else Ok(rows[k := rows[k].(quantity := rows[k].quantity - diff)])
    else Ok(rows)
  }

  /** update_shipment on the shipment row. */
  function Edited(s: Shipment, upd: ShipmentUpdate): (r: Shipment)
    ensures r.customerId == s.customerId && r.productId == s.productId
    ensures r.quantity == upd.quantity.GetOr(s.quantity)
    ensures r.shipmentDate == upd.shipmentDate.GetOr(s.shipmentDate)
    ensures upd.rmaTicket.Some? ==> r.rmaTicket == upd.rmaTicket
    ensures upd.rmaTicket.None? ==> r.rmaTicket == s.rmaTicket
  {
    Shipment(s.customerId, s.productId, upd.quantity.GetOr(s.quantity),
             upd.shipmentDate.GetOr(s.shipmentDate),
             if upd.rmaTicket.Some? then upd.rmaTicket else s.rmaTicket)
  }

  /** Issuing the same edit again changes nothing more. */
  lemma EditRepeatIsNoop(rows: Rows, s: Shipment, upd: ShipmentUpdate)
    requires EditedStock(rows, s, upd.quantity).Ok?
    ensures var rows1 := EditedStock(rows, s, upd.quantity).value;
      EditedStock(rows1, Edited(s, upd), upd.quantity) == Ok(rows1) && Edited(Edited(s, upd), upd) == Edited(s, upd)
  {
  }

  /** Two successive successful edits leave the ledger where one edit to the final quantity would. */
  lemma EditsCompose(rows: Rows, s: Shipment, q1: int, q2: int)
    requires EditedStock(rows, s, Some(q1)).Ok?
    requires EditedStock(EditedStock(rows, s, Some(q1)).value, s.(quantity := q1), Some(q2)).Ok?
    ensures EditedStock(rows, s, Some(q2)).Ok?
    ensures EditedStock(EditedStock(rows, s, Some(q1)).value, s.(quantity := q1), Some(q2)) == EditedStock(rows, s, Some(q2))
  {
    var k := ShipmentKey(s);
    if q1 != s.quantity && q2 != q1 {
      var r1 := EditedStock(rows, s, Some(q1)).value;
      var r2 := EditedStock(r1, s.(quantity := q1), Some(q2)).value;
      if q2 == s.quantity {
        assert r2 == rows;
      } else {
        assert r2 == rows[k := rows[k].(quantity := rows[k].quantity - (q2 - s.quantity))];
      }
    }
  }

  /** delete_shipment on the inventory table: give the quantity back to the row if it still exists. */
  function Returned(rows: Rows, s: Shipment): (r: Rows)
    ensures r.Keys == rows.Keys
    ensures ShipmentKey(s) in rows ==> r[ShipmentKey(s)] == rows[ShipmentKey(s)].(quantity := rows[ShipmentKey(s)].quantity + s.quantity)
    ensures ShipmentKey(s) !in rows ==> r == rows
    ensures forall k :: k in rows && k != ShipmentKey(s) ==> r[k] == rows[k]
  {
    var k := ShipmentKey(s);
    if k in rows then rows[k := rows[k].(quantity := rows[k].quantity + s.quantity)] else rows
  }

  /** Deleting the shipments one after another. */
  function ReturnAll(rows: Rows, ss: seq<Shipment>): Rows
    decreases |ss|
  {
    if ss == [] then rows else ReturnAll(Returned(rows, ss[0]), ss[1..])
  }

  /** Total quantity of the shipments stored against a row. */
  function Shipped(ss: seq<Shipment>, k: Key): int {
    if ss == [] then 0 else (if ShipmentKey(ss[0]) == k then ss[0].quantity else 0) + Shipped(ss[1..], k)
  }

  lemma {:induction false} ReturnAllTotals(rows: Rows, ss: seq<Shipment>)
    ensures var r := ReturnAll(rows, ss);
      r.Keys == rows.Keys && forall k :: k in rows ==> r[k] == rows[k].(quantity := rows[k].quantity + Shipped(ss, k))
    decreases |ss|
  {
    if ss != [] {
      ReturnAllTotals(Returned(rows, ss[0]), ss[1..]);
    }
  }

  /** When every item is taken from the selling customer, the batch's shipments are stored against the rows it debited. */
  lemma {:induction false} ShippedIsDemand(req: BatchShipmentCreate, items: seq<ShipmentItem>, k: Key)
    requires forall j :: 0 <= j < |items| ==> SourceOf(items[j].stockSourceCustomerId, req.customerId) == req.customerId
    ensures Shipped(BatchShipments(req, items), k) == Demand(req.customerId, items, k)
    decreases |items|
  {
    if items != [] {
      var ss := BatchShipments(req, items);
      assert ss[1..] == BatchShipments(req, items[1..]);
      ShippedIsDemand(req, items[1..], k);
    }
  }

  /**
   * Deleting every shipment of a successful batch whose items all come from the
   * selling customer's own stock restores the inventory table exactly.
   */
  lemma BatchThenDeleteRestores(rows: Rows, req: BatchShipmentCreate)
    requires forall j :: 0 <= j < |req.items| ==> SourceOf(req.items[j].stockSourceCustomerId, req.customerId) == req.customerId
    requires DebitAll(rows, req.customerId, req.items).Ok?
    ensures ReturnAll(DebitAll(rows, req.customerId, req.items).value, BatchShipments(req, req.items)) == rows
  {
    var r := DebitAll(rows, req.customerId, req.items).value;
    var ss := BatchShipments(req, req.items);
    DebitAllTotals(rows, req.customerId, req.items);
    ReturnAllTotals(r, ss);
    forall k | k in rows {
      ShippedIsDemand(req, req.items, k);
    }
  }

  /** The single route followed by deleting its shipment restores the table when the source is the seller. */
  lemma SingleThenDeleteRestores(rows: Rows, data: ShipmentCreate)
    requires SourceOf(data.stockSourceCustomerId, data.customerId) == data.customerId
    requires DebitSingle(rows, data).Ok?
    ensures Returned(DebitSingle(rows, data).value, SingleShipment(data)) == rows
  {
    var k := Key(data.customerId, data.productId);
    assert Returned(DebitSingle(rows, data).value, SingleShipment(data)) == rows[k := rows[k]];
  }

  /**
   * With a stock source other than the seller, deleting the shipment credits the
   * seller's row and leaves the source's row debited.
   */
  lemma CrossSourceDeleteCreditsSeller()
    ensures var rows := map[Key(1, 7) := Row(1, 10, 0, 0), Key(2, 7) := Row(2, 10, 0, 0)];
      var req := BatchShipmentCreate(1, "2024-01-01", None, [ShipmentItem(7, 4, Some(2))]);
      && DebitAll(rows, 1, req.items) == Ok(map[Key(1, 7) := Row(1, 10, 0, 0), Key(2, 7) := Row(2, 6, 0, 0)])
      && ReturnAll(DebitAll(rows, 1, req.items).value, BatchShipments(req, req.items))
         == map[Key(1, 7) := Row(1, 14, 0, 0), Key(2, 7) := Row(2, 6, 0, 0)]
  {
    var rows := map[Key(1, 7) := Row(1, 10, 0, 0), Key(2, 7) := Row(2, 10, 0, 0)];
    var req := BatchShipmentCreate(1, "2024-01-01", None, [ShipmentItem(7, 4, Some(2))]);
    assert req.items[1..] == [];
    assert ItemKey(1, req.items[0]) == Key(2, 7);
    assert rows[Key(2, 7) := Row(2, 6, 0, 0)] == map[Key(1, 7) := Row(1, 10, 0, 0), Key(2, 7) := Row(2, 6, 0, 0)];
    var ss := BatchShipments(req, req.items);
    assert ss == [Shipment(1, 7, 4, "2024-01-01", None)];
    assert ss[1..] == [];
  }
}
