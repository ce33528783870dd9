/**
 * The line editor and submit logic of the shipment form
 * (inventory-system/frontend/src/components/ShipmentManager.tsx).
 * The pure parts (filtering, the payload, the selling-customer sync) are functions;
 * the component's state and its handlers are a class whose methods replace that state.
 */
module ShipmentForm {
  import opened Wrappers
  import Tables

  /** One line of the form: where the stock comes from, which product, how many. */
  datatype ItemLine = ItemLine(sourceId: int, productId: int, quantity: int)

  /** The field a line edit targets (`keyof ItemLine`). */
  datatype Field = SourceId | ProductId | Quantity

  /** What a successful submit sends to the backend. */
  datatype Request =
    | EditRequest(shipmentId: int, update: Tables.ShipmentUpdate)
    | BatchRequest(batch: Tables.BatchShipmentCreate)

  /** The fields of a listed shipment the edit button copies into the form. */
  datatype ShipmentView = ShipmentView(id: int, customerId: int, productId: int, quantity: int,
                                       shipmentDate: string, rmaTicket: Option<string>)

  const SelectCustomerError: string := "Select a customer."
  const NoValidItemError: string := "Add at least one valid item."

  /** `editingId` is truthy: present and not 0. */
  predicate Editing(editingId: Option<int>) {
    editingId.Some? && editingId.value != 0
  }

  // ---------------------------------------------------------------------------
  // Line editor
  // ---------------------------------------------------------------------------

  /** Where `Array.prototype.splice(index, 1)` starts: a negative index counts back from the end. */
  function SpliceStart(index: int, len: nat): nat {
    if index >= 0 then index else if len + index >= 0 then len + index else 0
  }

  /** handleRemoveItem: the lines after `splice(index, 1)`. */
  function Removed(items: seq<ItemLine>, index: int): (r: seq<ItemLine>)
    ensures var s := SpliceStart(index, |items|);
      s < |items| ==>
        && |r| == |items| - 1
        && (forall j :: 0 <= j < |r| ==> r[j] == items[if j < s then j else j + 1])
        && multiset(r) + multiset{items[s]} == multiset(items)
    ensures SpliceStart(index, |items|) >= |items| ==> r == items
  {
    var s := SpliceStart(index, |items|);
    if s < |items| then
      assert items == items[..s] + [items[s]] + items[s + 1..];
      items[..s] + items[s + 1..]
    else items
  }

  /** handleItemChange on one line: set the field; choosing a new source clears the product. */
  function WithField(line: ItemLine, field: Field, val: int): ItemLine {
    match field
    case SourceId => line.(sourceId := val, productId := 0)
    case ProductId => line.(productId := val)
    case Quantity => line.(quantity := val)
  }

  /** handleItemChange: only line `index` changes. */
  function Changed(items: seq<ItemLine>, index: int, field: Field, val: int): (r: seq<ItemLine>)
    requires 0 <= index < |items|
    ensures |r| == |items|
    ensures forall j :: 0 <= j < |r| && j != index ==> r[j] == items[j]
    ensures field == SourceId ==> r[index] == ItemLine(val, 0, items[index].quantity)
    ensures field == ProductId ==> r[index] == items[index].(productId := val)
    ensures field == Quantity ==> r[index] == items[index].(quantity := val)
  {
    items[index := WithField(items[index], field, val)]
  }

  /** The selling-customer effect on one line. */
  function SyncLine(line: ItemLine, cust: int): ItemLine {
    ItemLine(cust, if line.sourceId != cust then 0 else line.productId, line.quantity)
  }

  /** The selling-customer effect: every line now draws from `cust`. */
  function Synced(items: seq<ItemLine>, cust: int): (r: seq<ItemLine>)
    ensures |r| == |items|
    ensures forall j :: 0 <= j < |r| ==> r[j].sourceId == cust && r[j].quantity == items[j].quantity
    ensures forall j :: 0 <= j < |r| ==> (r[j].productId == items[j].productId <==> items[j].sourceId == cust || items[j].productId == 0)
    ensures forall j :: 0 <= j < |r| ==> r[j].productId == items[j].productId || r[j].productId == 0
  {
    seq(|items|, j requires 0 <= j < |items| => SyncLine(items[j], cust))
  }

  /** Running the effect again changes nothing. */
  lemma SyncedIdempotent(items: seq<ItemLine>, cust: int)
    ensures Synced(Synced(items, cust), cust) == Synced(items, cust)
  {
  }

  // ---------------------------------------------------------------------------
  // Submit
  // ---------------------------------------------------------------------------

  predicate IsValidLine(line: ItemLine) {
    line.productId > 0 && line.quantity > 0
  }

  /** `items.filter(i => i.productId > 0 && i.quantity > 0)`. */
  function ValidLines(items: seq<ItemLine>): (r: seq<ItemLine>)
    ensures |r| <= |items|
    ensures forall j :: 0 <= j < |r| ==> IsValidLine(r[j])
    ensures forall x :: x in r <==> x in items && IsValidLine(x)
    ensures r == [] <==> forall j :: 0 <= j < |items| ==> !IsValidLine(items[j])
    decreases |items|
  {
    if items == [] then []
    else (if IsValidLine(items[0]) then [items[0]] else []) + ValidLines(items[1..])
  }

  /** Filtering keeps the original order: it distributes over concatenation. */
  lemma {:induction false} ValidLinesConcat(a: seq<ItemLine>, b: seq<ItemLine>)
    ensures ValidLines(a + b) == ValidLines(a) + ValidLines(b)
    decreases |a|
  {
    if a == [] {
      assert a + b == b;
    } else {
      assert (a + b)[0] == a[0];
      assert (a + b)[1..] == a[1..] + b;
      ValidLinesConcat(a[1..], b);
    }
  }

  /** The batch item a line becomes: its source is always sent, 0 included. */
  function PayloadItem(line: ItemLine): Tables.ShipmentItem {
    Tables.ShipmentItem(line.productId, line.quantity, Some(line.sourceId))
  }

  function PayloadItems(lines: seq<ItemLine>): (r: seq<Tables.ShipmentItem>)
    ensures |r| == |lines|
    ensures forall j :: 0 <= j < |lines| ==> r[j] == PayloadItem(lines[j])
  {
    seq(|lines|, j requires 0 <= j < |lines| => PayloadItem(lines[j]))
  }

  /** handleSubmit up to the request: the error it shows, or what it sends. */
  function Submit(selectedCust: int, editingId: Option<int>, items: seq<ItemLine>, date: string, rma: string)
    : (r: Result<Request, string>)
    ensures selectedCust == 0 ==> r == Err(SelectCustomerError)
    ensures selectedCust != 0 && ValidLines(items) == [] ==> r == Err(NoValidItemError)
    ensures r.Ok? <==> selectedCust != 0 && exists j :: 0 <= j < |items| && IsValidLine(items[j])
    ensures r.Ok? ==> (r.value.EditRequest? <==> Editing(editingId))
    ensures r.Ok? && Editing(editingId) ==>
      && r.value.shipmentId == editingId.value
      && r.value.update == Tables.ShipmentUpdate(Some(ValidLines(items)[0].quantity), Some(date), Some(rma))
    ensures r.Ok? && !Editing(editingId) ==>
      && r.value.batch.customerId == selectedCust
      && r.value.batch.shipmentDate == date
      && r.value.batch.rmaTicket == Some(rma)
      && |r.value.batch.items| == |ValidLines(items)|
      && forall j :: 0 <= j < |ValidLines(items)| ==> r.value.batch.items[j] == PayloadItem(ValidLines(items)[j])
  {
    if selectedCust == 0 then Err(SelectCustomerError)
    else
      var valid := ValidLines(items);
      if valid == [] then Err(NoValidItemError)
      else if Editing(editingId) then
        Ok(EditRequest(editingId.value, Tables.ShipmentUpdate(Some(valid[0].quantity), Some(date), Some(rma))))
      else
        Ok(BatchRequest(Tables.BatchShipmentCreate(selectedCust, date, Some(rma), PayloadItems(valid))))
  }

  /**
   * A submitted batch only carries positive quantities, so the backend's missing sign
   * check is never reached from this form, and each line is debited from its own
   * source, or from the selling customer when the line's source is 0.
   */
  lemma SubmittedBatchIsPositive(selectedCust: int, editingId: Option<int>, items: seq<ItemLine>, date: string, rma: string)
    requires Submit(selectedCust, editingId, items, date, rma).Ok?
    requires !Editing(editingId)
    ensures var batch := Submit(selectedCust, editingId, items, date, rma).value.batch;
      && |batch.items| > 0
      && (forall j :: 0 <= j < |batch.items| ==> batch.items[j].quantity > 0 && batch.items[j].productId > 0)
      && forall j :: 0 <= j < |batch.items| ==>
           var line := ValidLines(items)[j];
           Tables.ItemKey(selectedCust, batch.items[j])
             == Tables.Key(if line.sourceId != 0 then line.sourceId else selectedCust, line.productId)
  {
  }

  /** After the selling-customer effect, every submitted item is debited from the selling customer. */
  lemma SyncedBatchDrawsFromSeller(selectedCust: int, items: seq<ItemLine>, date: string, rma: string)
    requires selectedCust != 0
    requires Submit(selectedCust, None, Synced(items, selectedCust), date, rma).Ok?
    ensures var batch := Submit(selectedCust, None, Synced(items, selectedCust), date, rma).value.batch;
      forall j :: 0 <= j < |batch.items| ==> Tables.ItemKey(selectedCust, batch.items[j]).customerId == selectedCust
  {
    var synced := Synced(items, selectedCust);
    var valid := ValidLines(synced);
    forall j | 0 <= j < |valid| ensures valid[j].sourceId == selectedCust {
      assert valid[j] in synced;
    }
  }

  /** `s.shipment_date.slice(0, 10)`. */
  function DatePart(d: string): (r: string)
    ensures |r| == (if |d| < 10 then |d| else 10) && r <= d
  {
    if |d| <= 10 then d else d[..10]
  }

  // ---------------------------------------------------------------------------
  // The component's form state and handlers
  // ---------------------------------------------------------------------------

  class Form {
    var editingId: Option<int>
    var selectedCust: int
    var rma: string
    var date: string
    var items: seq<ItemLine>
    var showModal: bool
    var error: Option<string>

    /** The initial `useState` values; `today` is the clock's date. */
    constructor (today: string)
      ensures editingId == None && selectedCust == 0 && rma == "" && date == today
      ensures items == [ItemLine(0, 0, 0)] && !showModal && error == None
    {
      editingId, selectedCust, rma, date := None, 0, "", today;
      items, showModal, error := [ItemLine(0, 0, 0)], false, None;
    }

    /** handleOpen: create mode with exactly one blank line. */
    method HandleOpen()
      modifies this
      ensures editingId == None && items == [ItemLine(0, 0, 0)] && rma == "" && showModal && error == None
      ensures selectedCust == old(selectedCust) && date == old(date)
    {
      editingId := None;
      items := [ItemLine(0, 0, 0)];
      rma := "";
      showModal := true;
      error := None;
    }

    /** handleEdit: edit mode with exactly one line copied from the shipment, its source the shipment's customer. */
    method HandleEdit(s: ShipmentView)
      modifies this
      ensures editingId == Some(s.id) && selectedCust == s.customerId
      ensures items == [ItemLine(s.customerId, s.productId, s.quantity)]
      ensures rma == s.rmaTicket.GetOr("") && date == DatePart(s.shipmentDate)
      ensures showModal && error == None
    {
      editingId := Some(s.id);
      selectedCust := s.customerId;
      items := [ItemLine(s.customerId, s.productId, s.quantity)];
      rma := s.rmaTicket.GetOr("");
      date := DatePart(s.shipmentDate);
      showModal := true;
      error := None;
    }

    /** The selling-customer select. */
    method SelectCustomer(cust: int)
      modifies this`selectedCust
      ensures selectedCust == cust
    {
      selectedCust := cust;
    }

    /** The effect on [selectedCust, editingId, showModal]: in create mode with the modal open, sync every line. */
    method SyncSellingCustomer()
      modifies this`items
      ensures selectedCust != 0 && !Editing(editingId) && showModal ==> items == Synced(old(items), selectedCust)
      ensures !(selectedCust != 0 && !Editing(editingId) && showModal) ==> items == old(items)
    {
      if selectedCust != 0 && !Editing(editingId) && showModal {
        items := Synced(items, selectedCust);
      }
    }

    /** handleAddItem: append a blank line drawing from the selling customer. */
    method HandleAddItem()
      modifies this`items
      ensures items == old(items) + [ItemLine(selectedCust, 0, 0)]
    {
      items := items + [ItemLine(selectedCust, 0, 0)];
    }

    /** handleRemoveItem: copy the lines, splice one out, store the copy. */
    method HandleRemoveItem(index: int)
      modifies this`items
      ensures items == Removed(old(items), index)
    {
      var newItems := items;
      var s := SpliceStart(index, |newItems|);
      if s < |newItems| {
        newItems := newItems[..s] + newItems[s + 1..];
      }
      items := newItems;
    }

    /** handleItemChange: copy the lines, replace line `index`, clear its product on a source change. */
    method HandleItemChange(index: int, field: Field, val: int)
      requires 0 <= index < |items|
      modifies this`items
      ensures items == Changed(old(items), index, field, val)
    {
      var newItems := items;
      var line := newItems[index];
      newItems := newItems[index := match field
                                   case SourceId => line.(sourceId := val)
                                   case ProductId => line.(productId := val)
                                   case Quantity => line.(quantity := val)];
      if field == SourceId {
        newItems := newItems[index := newItems[index].(productId := 0)];
      }
      items := newItems;
    }

    /** handleSubmit up to the request: show the error, or return what is sent. */
    method HandleSubmit() returns (request: Option<Request>)
      modifies this`error
      ensures Submit(selectedCust, editingId, items, date, rma).Err? ==>
        request == None && error == Some(Submit(selectedCust, editingId, items, date, rma).error)
      ensures Submit(selectedCust, editingId, items, date, rma).Ok? ==>
        request == Some(Submit(selectedCust, editingId, items, date, rma).value) && error == old(error)
    {
      if selectedCust == 0 {
        error := Some(SelectCustomerError);
        return None;
      }
      var validItems := ValidLines(items);
      if |validItems| == 0 {
        error := Some(NoValidItemError);
        return None;
      }
      if Editing(editingId) {
        request := Some(EditRequest(editingId.value, Tables.ShipmentUpdate(Some(validItems[0].quantity), Some(date), Some(rma))));
      } else {
        request := Some(BatchRequest(Tables.BatchShipmentCreate(selectedCust, date, Some(rma), PayloadItems(validItems))));
      }
    }
  }
}
