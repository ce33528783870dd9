/**
 * The routes of inventory-system/backend/main.py as methods of one object holding the
 * tables. Each route runs as one sequential step; a route that raises returns `Err`
 * before any field is assigned, which is how the uncommitted session is thrown away.
 */
module Routes {
  import opened Wrappers
  import opened Tables

  class Store {
    var customers: map<int, Customer>
    var products: map<int, Product>
    var inventory: Rows
    var shipments: map<int, Shipment>
    var inbound: seq<Inbound>
    var links: set<Key>
    // Next primary key of each table with an auto-increment id.
    var nextCustomerId: int
    var nextProductId: int
    var nextInventoryId: int
    var nextShipmentId: int

    ghost predicate Valid()
      reads this
    {
      && (forall id :: id in customers ==> id < nextCustomerId)
      && (forall id :: id in products ==> id < nextProductId)
      && (forall id :: id in shipments ==> id < nextShipmentId)
      && RowIdsBelow(inventory, nextInventoryId)
      && RowIdsDistinct(inventory)
      && SkusUnique(products)
    }

    constructor ()
      ensures Valid()
      ensures customers == map[] && products == map[] && inventory == map[] && shipments == map[]
      ensures inbound == [] && links == {}
    {
      customers, products, inventory, shipments := map[], map[], map[], map[];
      inbound, links := [], {};
      nextCustomerId, nextProductId, nextInventoryId, nextShipmentId := 1, 1, 1, 1;
    }

    // -------------------------------------------------------------------------
    // Customers
    // -------------------------------------------------------------------------

    method CreateCustomer(c: Customer) returns (id: int)
      requires Valid()
      modifies this
      ensures Valid()
      ensures id !in old(customers) && customers == old(customers)[id := c]
      ensures products == old(products) && inventory == old(inventory) && shipments == old(shipments)
      ensures inbound == old(inbound) && links == old(links)
    {
      id := nextCustomerId;
      customers := customers[id := c];
      nextCustomerId := nextCustomerId + 1;
    }

    method UpdateCustomer(id: int, c: Customer) returns (r: Result<Customer, ApiError>)
      requires Valid()
      modifies this`customers
      ensures Valid()
      ensures id !in old(customers) ==> r == Err(NotFound(CustomerEntity)) && customers == old(customers)
      ensures id in old(customers) ==> r == Ok(c) && customers == old(customers)[id := c]
    {
      if id !in customers {
        return Err(NotFound(CustomerEntity));
      }
      customers := customers[id := c];
      r := Ok(c);
    }

    /** No reference check: inventory rows, shipments and links of the customer stay. */
    method DeleteCustomer(id: int) returns (r: Result<(), ApiError>)
      requires Valid()
      modifies this`customers
      ensures Valid()
      ensures id !in old(customers) ==> r == Err(NotFound(CustomerEntity)) && customers == old(customers)
      ensures id in old(customers) ==> r == Ok(()) && customers == old(customers) - {id}
    {
      if id !in customers {
        return Err(NotFound(CustomerEntity));
      }
      customers := customers - {id};
      r := Ok(());
    }

    // -------------------------------------------------------------------------
    // Products
    // -------------------------------------------------------------------------

    method CreateProduct(p: Product) returns (r: Result<int, ApiError>)
      requires Valid()
      modifies this`products, this`nextProductId
      ensures Valid()
      ensures r.Err? <==> SkuTaken(old(products), p.skuCode)
      ensures r.Err? ==> r.error == SkuExists && products == old(products) && nextProductId == old(nextProductId)
      ensures r.Ok? ==> r.value !in old(products) && products == AddedProduct(old(products), r.value, p).value
    {
      if exists id :: id in products && products[id].skuCode == p.skuCode {
        return Err(SkuExists);
      }
      var id := nextProductId;
      assert AddedProduct(products, id, p).Ok?;
      products := products[id := p];
      nextProductId := nextProductId + 1;
      r := Ok(id);
    }

    method UpdateProduct(id: int, p: Product) returns (r: Result<Product, ApiError>)
      requires Valid()
      modifies this`products
      ensures Valid()
      ensures UpdatedProduct(old(products), id, p).Err? ==>
                r == Err(UpdatedProduct(old(products), id, p).error) && products == old(products)
      ensures UpdatedProduct(old(products), id, p).Ok? ==>
                r == Ok(p) && products == UpdatedProduct(old(products), id, p).value
    {
      if id !in products {
        return Err(NotFound(ProductEntity));
      }
      if p.skuCode != products[id].skuCode {
        if exists other :: other in products && products[other].skuCode == p.skuCode {
          return Err(NewSkuExists);
        }
      }
      products := products[id := p];
      r := Ok(p);
    }

    /** No reference check: inventory rows, shipments and links of the product stay. */
    method DeleteProduct(id: int) returns (r: Result<(), ApiError>)
      requires Valid()
      modifies this`products
      ensures Valid()
      ensures id !in old(products) ==> r == Err(NotFound(ProductEntity)) && products == old(products)
      ensures id in old(products) ==> r == Ok(()) && products == old(products) - {id}
    {
      if id !in products {
        return Err(NotFound(ProductEntity));
      }
      products := products - {id};
      r := Ok(());
    }

    // -------------------------------------------------------------------------
    // Inventory
    // -------------------------------------------------------------------------

    /** create_inventory_entry: one inbound row, then add to the pair's row or create it. */
    method StockIn(data: InventoryCreate) returns (row: Row)
      requires Valid()
      modifies this`inbound, this`inventory, this`nextInventoryId
      ensures Valid()
      ensures inbound == old(inbound) + [StockInEntry(data)]
      ensures inventory == StockInRows(old(inventory), old(nextInventoryId), data)
      ensures row == inventory[Key(data.customerId, data.productId)]
    {
      inbound := inbound + [StockInEntry(data)];
      var k := Key(data.customerId, data.productId);
      if k in inventory {
        var existing := inventory[k];
        existing := existing.(quantity := existing.quantity + data.quantity);
        var target, safety := ParsedThreshold(data.targetStock), ParsedThreshold(data.safetyStock);
        if target.Some? { existing := existing.(targetStock := target.value); }
        if safety.Some? { existing := existing.(safetyStock := safety.value); }
        inventory := inventory[k := existing];
        row := existing;
      } else {
        row := Row(nextInventoryId, data.quantity, ParsedThreshold(data.targetStock).GetOr(0),
                   ParsedThreshold(data.safetyStock).GetOr(0));
        inventory := inventory[k := row];
        nextInventoryId := nextInventoryId + 1;
      }
    }

    /** update_inventory_quantity: overwrite the supplied fields of the row with that id. */
    method Overwrite(id: int, data: InventoryUpdate) returns (r: Result<Row, ApiError>)
      requires Valid()
      modifies this`inbound, this`inventory
      ensures Valid()
      ensures r.Err? <==> !exists k :: k in old(inventory) && old(inventory)[k].id == id
      ensures r.Err? ==> r.error == NotFound(InventoryEntity) && inventory == old(inventory) && inbound == old(inbound)
      ensures forall k :: k in old(inventory) && old(inventory)[k].id == id ==>
        && inventory == old(inventory)[k := Overwritten(old(inventory)[k], data)]
        && inbound == old(inbound) + AdjustmentLog(k, old(inventory)[k], data)
        && r == Ok(inventory[k])
    {
      if !exists k :: k in inventory && inventory[k].id == id {
        return Err(NotFound(InventoryEntity));
      }
      var k :| k in inventory && inventory[k].id == id;
      var item := inventory[k];
      if data.quantity.Some? {
        var diff := data.quantity.value - item.quantity;
        if diff != 0 {
          inbound := inbound + [Inbound(k.customerId, k.productId, diff, ManualAdjustment(item.quantity, data.quantity.value))];
        }
        item := item.(quantity := data.quantity.value);
      }
      if data.targetStock.Some? { item := item.(targetStock := data.targetStock.value); }
      if data.safetyStock.Some? { item := item.(safetyStock := data.safetyStock.value); }
      inventory := inventory[k := item];
      r := Ok(item);
    }

    /** delete_inventory_entry. */
    method DeleteInventory(id: int) returns (r: Result<(), ApiError>)
      requires Valid()
      modifies this`inventory
      ensures Valid()
      ensures r.Err? <==> !exists k :: k in old(inventory) && old(inventory)[k].id == id
      ensures r.Err? ==> r.error == NotFound(InventoryEntity) && inventory == old(inventory)
      ensures forall k :: k in old(inventory) && old(inventory)[k].id == id ==> inventory == old(inventory) - {k}
    {
      if !exists k :: k in inventory && inventory[k].id == id {
        return Err(NotFound(InventoryEntity));
      }
      var k :| k in inventory && inventory[k].id == id;
      inventory := inventory - {k};
      r := Ok(());
    }

    // -------------------------------------------------------------------------
    // Shipments
    // -------------------------------------------------------------------------

    /** create_shipment: debit the source's row, store the shipment under the selling customer. */
    method CreateShipment(data: ShipmentCreate) returns (r: Result<ShipmentRecord, ApiError>)
      requires Valid()
      modifies this`inventory, this`shipments, this`nextShipmentId
      ensures Valid()
      ensures DebitSingle(old(inventory), data).Err? ==>
        && r == Err(DebitSingle(old(inventory), data).error)
        && inventory == old(inventory) && shipments == old(shipments) && nextShipmentId == old(nextShipmentId)
      ensures DebitSingle(old(inventory), data).Ok? ==>
        && inventory == DebitSingle(old(inventory), data).value
        && r == Ok(ShipmentRecord(old(nextShipmentId), SingleShipment(data)))
        && old(nextShipmentId) !in old(shipments)
        && shipments == old(shipments)[old(nextShipmentId) := SingleShipment(data)]
    {
      var ownerId := SourceOf(data.stockSourceCustomerId, data.customerId);
      var k := Key(ownerId, data.productId);
      if k !in inventory {
        return Err(NoSourceInventory(ownerId));
      }
      if inventory[k].quantity < data.quantity {
        return Err(InsufficientInventory(inventory[k].quantity));
      }
      inventory := inventory[k := inventory[k].(quantity := inventory[k].quantity - data.quantity)];
      var s := Shipment(data.customerId, data.productId, data.quantity, data.shipmentDate, data.rmaTicket);
      shipments := shipments[nextShipmentId := s];
      r := Ok(ShipmentRecord(nextShipmentId, s));
      nextShipmentId := nextShipmentId + 1;
    }

    /**
     * create_batch_shipment: check and debit item by item on the session's copy of the
     * inventory table, then commit the copy and all shipment rows together.
     */
    method CreateBatchShipment(req: BatchShipmentCreate) returns (r: Result<seq<ShipmentRecord>, ApiError>)
      requires Valid()
      modifies this`inventory, this`shipments, this`nextShipmentId
      ensures Valid()
      ensures DebitAll(old(inventory), req.customerId, req.items).Err? ==>
        && r == Err(DebitAll(old(inventory), req.customerId, req.items).error)
        && inventory == old(inventory) && shipments == old(shipments) && nextShipmentId == old(nextShipmentId)
      ensures DebitAll(old(inventory), req.customerId, req.items).Ok? ==>
        && inventory == DebitAll(old(inventory), req.customerId, req.items).value
        && r == Ok(Numbered(old(nextShipmentId), BatchShipments(req, req.items)))
        && shipments == old(shipments) + NumberedTable(old(nextShipmentId), BatchShipments(req, req.items))
        && (forall id :: id in old(shipments) ==> id !in NumberedTable(old(nextShipmentId), BatchShipments(req, req.items)))
        && nextShipmentId == old(nextShipmentId) + |req.items|
    {
      var session := inventory;
      var created: seq<Shipment> := [];
      var i := 0;
      while i < |req.items|
        invariant 0 <= i <= |req.items|
        invariant DebitAll(inventory, req.customerId, req.items) == DebitAll(session, req.customerId, req.items[i..])
        invariant created == BatchShipments(req, req.items)[..i]
      {
        var item := req.items[i];
        assert req.items[i..][0] == item && req.items[i..][1..] == req.items[i + 1..];
        var sourceId := SourceOf(item.stockSourceCustomerId, req.customerId);
        var k := Key(sourceId, item.productId);
        if k !in session {
          return Err(NoItemInventory(item.productId, sourceId));
        }
        if session[k].quantity < item.quantity {
          return Err(InsufficientItemInventory(item.productId, sourceId, session[k].quantity));
        }
        session := session[k := session[k].(quantity := session[k].quantity - item.quantity)];
        created := created + [ShipmentFor(req, item)];
        i := i + 1;
      }
      assert req.items[i..] == [];
      assert created == BatchShipments(req, req.items);
      DebitAllTotals(inventory, req.customerId, req.items);
      inventory := session;
      r := Ok(Numbered(nextShipmentId, created));
      shipments := shipments + NumberedTable(nextShipmentId, created);
      nextShipmentId := nextShipmentId + |created|;
    }

    /** update_shipment: adjust the selling customer's row by the quantity change, then the row. */
    method UpdateShipment(id: int, upd: ShipmentUpdate) returns (r: Result<ShipmentRecord, ApiError>)
      requires Valid()
      modifies this`inventory, this`shipments
      ensures Valid()
      ensures id !in old(shipments) ==>
        r == Err(NotFound(ShipmentEntity)) && inventory == old(inventory) && shipments == old(shipments)
      ensures id in old(shipments) && EditedStock(old(inventory), old(shipments)[id], upd.quantity).Err? ==>
        && r == Err(EditedStock(old(inventory), old(shipments)[id], upd.quantity).error)
        && inventory == old(inventory) && shipments == old(shipments)
      ensures id in old(shipments) && EditedStock(old(inventory), old(shipments)[id], upd.quantity).Ok? ==>
        && inventory == EditedStock(old(inventory), old(shipments)[id], upd.quantity).value
        && shipments == old(shipments)[id := Edited(old(shipments)[id], upd)]
        && r == Ok(ShipmentRecord(id, Edited(old(shipments)[id], upd)))
    {
      if id !in shipments {
        return Err(NotFound(ShipmentEntity));
      }
      var s := shipments[id];
      var rows := inventory;
      if upd.quantity.Some? && upd.quantity.value != s.quantity {
        var diff := upd.quantity.value - s.quantity;
        var k := Key(s.customerId, s.productId);
        if k !in rows {
          return Err(RelatedInventoryMissing);
        }
        if diff > 0 && rows[k].quantity < diff {
          return Err(InsufficientToIncrease);
        }
        rows := rows[k := rows[k].(quantity := rows[k].quantity - diff)];
        s := s.(quantity := upd.quantity.value);
      }
      if upd.shipmentDate.Some? { s := s.(shipmentDate := upd.shipmentDate.value); }
      if upd.rmaTicket.Some? { s := s.(rmaTicket := upd.rmaTicket); }
      inventory := rows;
      shipments := shipments[id := s];
      r := Ok(ShipmentRecord(id, s));
    }

    /** delete_shipment: return the quantity to the selling customer's row if it exists; always delete. */
    method DeleteShipment(id: int) returns (r: Result<(), ApiError>)
      requires Valid()
      modifies this`inventory, this`shipments
      ensures Valid()
      ensures id !in old(shipments) ==>
        r == Err(NotFound(ShipmentEntity)) && inventory == old(inventory) && shipments == old(shipments)
      ensures id in old(shipments) ==>
        && r == Ok(())
        && inventory == Returned(old(inventory), old(shipments)[id])
        && shipments == old(shipments) - {id}
    {
      if id !in shipments {
        return Err(NotFound(ShipmentEntity));
      }
      var s := shipments[id];
      var k := Key(s.customerId, s.productId);
      if k in inventory {
        inventory := inventory[k := inventory[k].(quantity := inventory[k].quantity + s.quantity)];
      }
      shipments := shipments - {id};
      r := Ok(());
    }

    // -------------------------------------------------------------------------
    // Customer-product links
    // -------------------------------------------------------------------------

    /** link_product_to_customer: succeeds either way; reports whether the pair was already linked. */
    method Link(customerId: int, productId: int) returns (alreadyLinked: bool)
      requires Valid()
      modifies this`links
      ensures Valid()
      ensures alreadyLinked <==> Key(customerId, productId) in old(links)
      ensures links == old(links) + {Key(customerId, productId)}
    {
      alreadyLinked := Key(customerId, productId) in links;
      if !alreadyLinked {
        links := links + {Key(customerId, productId)};
      }
    }

    /** unlink_product_from_customer: an absent link is a 404, not a no-op. */
    method Unlink(customerId: int, productId: int) returns (r: Result<(), ApiError>)
      requires Valid()
      modifies this`links
      ensures Valid()
      ensures Key(customerId, productId) !in old(links) ==> r == Err(NotFound(LinkEntity)) && links == old(links)
      ensures Key(customerId, productId) in old(links) ==> r == Ok(()) && links == old(links) - {Key(customerId, productId)}
    {
      if Key(customerId, productId) !in links {
        return Err(NotFound(LinkEntity));
      }
      links := links - {Key(customerId, productId)};
      r := Ok(());
    }
  }

  /**
   * A client of the routes: a shipment taken from the seller's own stock and then
   * deleted leaves the seller's row as it was.
   */
  method ShipThenDelete(store: Store, data: ShipmentCreate) returns (restored: bool)
    requires store.Valid()
    requires SourceOf(data.stockSourceCustomerId, data.customerId) == data.customerId
    modifies store
    ensures store.Valid()
    ensures restored ==> store.inventory == old(store.inventory)
    ensures DebitSingle(old(store.inventory), data).Ok? ==> restored
  {
    var created := store.CreateShipment(data);
    if created.Err? {
      return false;
    }
    var deleted := store.DeleteShipment(created.value.id);
    SingleThenDeleteRestores(old(store.inventory), data);
    restored := deleted.Ok?;
  }
}
