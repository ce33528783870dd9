/**
 * The derived views of the stock dashboard
 * (inventory-system/frontend/src/components/Dashboard.tsx): the low-stock flag of an
 * inventory row and the grouping of the fetched rows by customer.
 */
module Dashboard {
  import opened Wrappers
  import Tables

  datatype CustomerRef = CustomerRef(name: string)

  /** A row of the /inventory/ response as the dashboard receives it. */
  datatype InventoryItem = InventoryItem(id: Option<int>, customerId: int, productId: int, quantity: int,
                                         targetStock: Option<int>, safetyStock: Option<int>,
                                         customer: Option<CustomerRef>)

  /** A customer's card: its title and its rows. */
  datatype Group = Group(name: string, items: seq<InventoryItem>)

  const UnknownCustomer: string := "Unknown Customer"

  // ---------------------------------------------------------------------------
  // Low stock
  // ---------------------------------------------------------------------------

  /** `item.safety_stock || 0`: a missing threshold reads as 0. */
  function SafetyOf(item: InventoryItem): int {
    item.safetyStock.GetOr(0)
  }

  /** A row is low when it has a positive threshold and holds no more than it. */
  function IsLowStock(item: InventoryItem): (low: bool)
    ensures low <==> item.safetyStock.Some? && 0 < item.safetyStock.value && item.quantity <= item.safetyStock.value
  {
    SafetyOf(item) > 0 && item.quantity <= SafetyOf(item)
  }

  /** Without a positive threshold a row is never low, whatever it holds. */
  lemma NoThresholdNeverLow(item: InventoryItem)
    requires item.safetyStock.None? || item.safetyStock.value <= 0
    ensures !IsLowStock(item)
  {
  }

  /** The dashboard's view of an inventory row of the backend. */
  function ItemOfRow(k: Tables.Key, row: Tables.Row): InventoryItem {
    InventoryItem(Some(row.id), k.customerId, k.productId, row.quantity,
                  Some(row.targetStock), Some(row.safetyStock), None)
  }

  /** A batch of non-negative items never clears a low-stock flag: it neither raises stock nor touches thresholds. */
  lemma BatchKeepsLowStockLow(rows: Tables.Rows, selling: int, items: seq<Tables.ShipmentItem>, k: Tables.Key)
    requires Tables.DebitAll(rows, selling, items).Ok?
    requires forall j :: 0 <= j < |items| ==> items[j].quantity >= 0
    requires k in rows && IsLowStock(ItemOfRow(k, rows[k]))
    ensures var r := Tables.DebitAll(rows, selling, items).value;
      k in r && IsLowStock(ItemOfRow(k, r[k]))
  {
    Tables.DebitAllTotals(rows, selling, items);
    Tables.DebitAllNeverRaises(rows, selling, items);
  }

  /** After a stock-in from the form (no thresholds sent), the pair's row can never show as low. */
  lemma FormStockInClearsLowStock(rows: Tables.Rows, freshId: int, customerId: int, productId: int,
                                  quantity: int, remarks: string)
    ensures var k := Tables.Key(customerId, productId);
      var r := Tables.StockInRows(rows, freshId,
                 Tables.InventoryCreate(customerId, productId, quantity, Tables.Omitted, Tables.Omitted, Some(remarks)));
      k in r && !IsLowStock(ItemOfRow(k, r[k]))
  {
  }

  // ---------------------------------------------------------------------------
  // Grouping by customer
  // ---------------------------------------------------------------------------

  /** `item.customer?.name || 'Unknown Customer'`: a missing or empty name falls back. */
  function NameOf(item: InventoryItem): (name: string)
    ensures name != ""
    ensures item.customer.Some? && item.customer.value.name != "" ==> name == item.customer.value.name
    ensures item.customer.None? || item.customer.value.name == "" ==> name == UnknownCustomer
  {
    if item.customer.Some? && item.customer.value.name != "" then item.customer.value.name else UnknownCustomer
  }

  function CustomerIds(inventory: seq<InventoryItem>): set<int> {
    set j | 0 <= j < |inventory| :: inventory[j].customerId
  }

  /** The rows of one customer, in list order. */
  function ItemsOf(inventory: seq<InventoryItem>, c: int): (r: seq<InventoryItem>)
    ensures |r| <= |inventory|
    ensures forall x :: x in r <==> x in inventory && x.customerId == c
    ensures r == [] <==> c !in CustomerIds(inventory)
    decreases |inventory|
  {
    if inventory == [] then []
    else (if inventory[0].customerId == c then [inventory[0]] else []) + ItemsOf(inventory[1..], c)
  }

  /** The name of the first row seen for the customer. */
  function GroupName(inventory: seq<InventoryItem>, c: int): string
    decreases |inventory|
  {
    if inventory == [] then UnknownCustomer
    else if inventory[0].customerId == c then NameOf(inventory[0])
    else GroupName(inventory[1..], c)
  }

  /** Grouping keeps list order: the rows of a customer in a + b are its rows in a, then its rows in b. */
  lemma {:induction false} ItemsOfConcat(a: seq<InventoryItem>, b: seq<InventoryItem>, c: int)
    ensures ItemsOf(a + b, c) == ItemsOf(a, c) + ItemsOf(b, c)
    decreases |a|
  {
    if a == [] {
      assert a + b == b;
    } else {
      assert (a + b)[0] == a[0];
      assert (a + b)[1..] == a[1..] + b;
      ItemsOfConcat(a[1..], b, c);
    }
  }

  /** Rows after the first one seen for a customer do not change its group's name. */
  lemma {:induction false} GroupNameConcat(a: seq<InventoryItem>, b: seq<InventoryItem>, c: int)
    ensures c in CustomerIds(a) ==> GroupName(a + b, c) == GroupName(a, c)
    ensures c !in CustomerIds(a) ==> GroupName(a + b, c) == GroupName(b, c)
    decreases |a|
  {
    if a == [] {
      assert a + b == b;
    } else {
      assert (a + b)[0] == a[0];
      assert (a + b)[1..] == a[1..] + b;
      CustomerIdsConcat([a[0]], a[1..]);
      assert [a[0]] + a[1..] == a;
      GroupNameConcat(a[1..], b, c);
    }
  }

  lemma CustomerIdsConcat(a: seq<InventoryItem>, b: seq<InventoryItem>)
    ensures CustomerIds(a + b) == CustomerIds(a) + CustomerIds(b)
  {
    var ab := a + b;
    forall x | x in CustomerIds(ab) ensures x in CustomerIds(a) + CustomerIds(b) {
      var j :| 0 <= j < |ab| && ab[j].customerId == x;
      if j < |a| { assert ab[j] == a[j]; } else { assert ab[j] == b[j - |a|]; }
    }
    forall x | x in CustomerIds(a) ensures x in CustomerIds(ab) {
      var j :| 0 <= j < |a| && a[j].customerId == x;
      assert ab[j] == a[j];
    }
    forall x | x in CustomerIds(b) ensures x in CustomerIds(ab) {
      var j :| 0 <= j < |b| && b[j].customerId == x;
      assert ab[j + |a|] == b[j];
    }
  }

  /** One step of the reduce: open the customer's group on its first row, then push the row. */
  function AddToGroups(acc: map<int, Group>, item: InventoryItem): (r: map<int, Group>)
    ensures r.Keys == acc.Keys + {item.customerId}
    ensures forall c :: c in acc && c != item.customerId ==> r[c] == acc[c]
    ensures item.customerId in acc ==> r[item.customerId] == acc[item.customerId].(items := acc[item.customerId].items + [item])
    ensures item.customerId !in acc ==> r[item.customerId] == Group(NameOf(item), [item])
  {
    var g := if item.customerId in acc then acc[item.customerId] else Group(NameOf(item), []);
    acc[item.customerId := g.(items := g.items + [item])]
  }

  /** The reduce over a prefix of the list. */
  function Grouped(inventory: seq<InventoryItem>): (g: map<int, Group>)
    ensures forall c :: c in g ==> g[c].items != []
    decreases |inventory|
  {
    if inventory == [] then map[]
    else AddToGroups(Grouped(inventory[..|inventory| - 1]), inventory[|inventory| - 1])
  }

  /** The reduce opens a group for exactly the customers in the list. */
  lemma {:induction false} GroupedKeys(inventory: seq<InventoryItem>)
    ensures Grouped(inventory).Keys == CustomerIds(inventory)
    decreases |inventory|
  {
    if inventory != [] {
      var n := |inventory|;
      var seen, item := inventory[..n - 1], inventory[n - 1];
      assert inventory == seen + [item];
      GroupedKeys(seen);
      CustomerIdsConcat(seen, [item]);
      assert CustomerIds([item]) == {item.customerId};
    }
  }

  /** A customer's group is named by its first row and holds its rows in list order. */
  lemma {:induction false} GroupedAt(inventory: seq<InventoryItem>, c: int)
    requires c in Grouped(inventory)
    ensures Grouped(inventory)[c] == Group(GroupName(inventory, c), ItemsOf(inventory, c))
    decreases |inventory|
  {
    var n := |inventory|;
    var seen, item := inventory[..n - 1], inventory[n - 1];
    assert inventory == seen + [item];
    ItemsOfConcat(seen, [item], c);
    GroupNameConcat(seen, [item], c);
    assert [item][1..] == [];
    GroupedKeys(seen);
    if c in Grouped(seen) {
      GroupedAt(seen, c);
    }
  }

  /** groupedInventory: the reduce, run as a loop over the fetched rows. */
  method GroupInventory(inventory: seq<InventoryItem>) returns (groups: map<int, Group>)
    ensures groups.Keys == CustomerIds(inventory)
    ensures forall c :: c in groups ==> groups[c] == Group(GroupName(inventory, c), ItemsOf(inventory, c))
  {
    groups := map[];
    for i := 0 to |inventory|
      invariant groups == Grouped(inventory[..i])
    {
      var item := inventory[i];
      var custId := item.customerId;
      if custId !in groups {
        groups := groups[custId := Group(NameOf(item), [])];
      }
      groups := groups[custId := groups[custId].(items := groups[custId].items + [item])];
      assert inventory[..i + 1][..i] == inventory[..i];
    }
    assert inventory[..|inventory|] == inventory;
    GroupedKeys(inventory);
    forall c | c in groups
      ensures groups[c] == Group(GroupName(inventory, c), ItemsOf(inventory, c))
    {
      GroupedAt(inventory, c);
    }
  }

  // ---------------------------------------------------------------------------
  // Group sizes
  // ---------------------------------------------------------------------------

  /** Occurrences of `v` in `cs`. */
  function Count(cs: seq<int>, v: int): nat {
    if cs == [] then 0 else (if cs[0] == v then 1 else 0) + Count(cs[1..], v)
  }

  predicate Distinct(cs: seq<int>) {
    forall i, j :: 0 <= i < j < |cs| ==> cs[i] != cs[j]
  }

  /** Sum of the sizes of the groups of the listed customers. */
  function SumSizes(inventory: seq<InventoryItem>, cs: seq<int>): nat {
    if cs == [] then 0 else |ItemsOf(inventory, cs[0])| + SumSizes(inventory, cs[1..])
  }

  lemma {:induction false} CountDistinct(cs: seq<int>, v: int)
    requires Distinct(cs) && v in cs
    ensures Count(cs, v) == 1
    decreases |cs|
  {
    if cs[0] == v {
      CountAbsent(cs[1..], v);
    } else {
      CountDistinct(cs[1..], v);
    }
  }

  lemma {:induction false} CountAbsent(cs: seq<int>, v: int)
    requires v !in cs
    ensures Count(cs, v) == 0
    decreases |cs|
  {
    if cs != [] {
      CountAbsent(cs[1..], v);
    }
  }

  lemma {:induction false} SumSizesCons(x: InventoryItem, rest: seq<InventoryItem>, cs: seq<int>)
    ensures SumSizes([x] + rest, cs) == Count(cs, x.customerId) + SumSizes(rest, cs)
    decreases |cs|
  {
    assert ([x] + rest)[0] == x && ([x] + rest)[1..] == rest;
    if cs != [] {
      SumSizesCons(x, rest, cs[1..]);
    }
  }

  /** Every row lands in exactly one group: over any listing of the customers without repeats, the group sizes sum to the list length. */
  lemma {:induction false} GroupSizesSum(inventory: seq<InventoryItem>, cs: seq<int>)
    requires Distinct(cs)
    requires forall j :: 0 <= j < |inventory| ==> inventory[j].customerId in cs
    ensures SumSizes(inventory, cs) == |inventory|
    decreases |inventory|
  {
    if inventory == [] {
      SumSizesEmpty(cs);
    } else {
      var x, rest := inventory[0], inventory[1..];
      assert inventory == [x] + rest;
      SumSizesCons(x, rest, cs);
      CountDistinct(cs, x.customerId);
      forall j | 0 <= j < |rest| ensures rest[j].customerId in cs {
        assert rest[j] == inventory[j + 1];
      }
      GroupSizesSum(rest, cs);
    }
  }

  lemma {:induction false} SumSizesEmpty(cs: seq<int>)
    ensures SumSizes([], cs) == 0
    decreases |cs|
  {
    if cs != [] {
      SumSizesEmpty(cs[1..]);
    }
  }
}
