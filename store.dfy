/** The application store of `App.tsx`: the lists of products, orders, leads
    and moderators, and the handlers that replace them. Each handler's list
    transformation is a function here, with lemmas stating what it does; the
    class `AppStore` holds the lists and applies those functions. */
module Store {
  import opened Wrappers
  import opened Seqs
  import opened Domain
  import Constants

  // ---------------------------------------------------------------- products

  /** `p.stock ?? 50`: a missing stock becomes 50; any present value, 0 included, stays. */
  function WithDefaultStock(p: Product): (r: Product)
    ensures r.stock.Some?
    ensures r == p.(stock := r.stock)
    ensures p.stock.None? ==> r.stock == Some(50)
    ensures p.stock.Some? ==> r.stock == p.stock
  {
    p.(stock := Some(p.stock.GetOr(50)))
  }

  /** Loading the product list (App.tsx:31) gives every product a stock. */
  function LoadProducts(saved: seq<Product>): (r: seq<Product>)
    ensures |r| == |saved|
    ensures forall i :: 0 <= i < |r| ==> r[i] == WithDefaultStock(saved[i])
  {
    seq(|saved|, i requires 0 <= i < |saved| => WithDefaultStock(saved[i]))
  }

  /** `handleAddProduct`: append, with the same stock default as loading. */
  function AddProduct(products: seq<Product>, p: Product): (r: seq<Product>)
    ensures |r| == |products| + 1 && r[..|products|] == products
    ensures r[|products|] == WithDefaultStock(p)
  {
    products + [WithDefaultStock(p)]
  }

  /** `handleUpdateProduct`: every product with the updated one's id is replaced by it. */
  function ReplaceProduct(products: seq<Product>, updated: Product): (r: seq<Product>)
    ensures |r| == |products|
    ensures forall i :: 0 <= i < |r| ==> r[i] == if products[i].id == updated.id then updated else products[i]
  {
    seq(|products|, i requires 0 <= i < |products| => if products[i].id == updated.id then updated else products[i])
  }

  /** `handleDeleteProduct`. */
  function RemoveProduct(products: seq<Product>, id: string): (r: seq<Product>)
    ensures forall i :: 0 <= i < |r| ==> r[i].id != id && r[i] in products
    ensures forall i :: 0 <= i < |products| && products[i].id != id ==> products[i] in r
  {
    Filter(products, (p: Product) => p.id != id)
  }

  /** Deleting a product distributes over the list's parts, so the remaining
      products keep their order. */
  lemma RemoveProductKeepsOrder(front: seq<Product>, back: seq<Product>, id: string)
    ensures RemoveProduct(front + back, id) == RemoveProduct(front, id) + RemoveProduct(back, id)
  {
    FilterAppend(front, back, (p: Product) => p.id != id);
  }

  /** Deleting an id no product has changes nothing. */
  lemma RemoveProductUnknown(products: seq<Product>, id: string)
    requires forall i :: 0 <= i < |products| ==> products[i].id != id
    ensures RemoveProduct(products, id) == products
  {
    FilterKeepsAll(products, (p: Product) => p.id != id);
  }

  /** `p.stock || 0`: a missing stock counts as 0. */
  function StockOrZero(p: Product): int {
    p.stock.GetOr(0)
  }

  function Max0(x: int): (r: int)
    ensures r >= 0 && r >= x && (r == 0 || r == x)
  {
    if x < 0 then 0 else x
  }

  /** The first line of `items` that names product `id` (App.tsx:94). */
  function FirstItemFor(items: seq<OrderItem>, id: string): Option<OrderItem> {
    Find(items, (it: OrderItem) => it.productId == id)
  }

  function DeductOne(p: Product, items: seq<OrderItem>): Product {
    match FirstItemFor(items, p.id)
    case None => p
    case Some(item) => p.(stock := Some(Max0(StockOrZero(p) - item.quantity)))
  }

  /** The stock deduction `handleCreateOrder` applies to the catalog. */
  function DeductStock(products: seq<Product>, items: seq<OrderItem>): (r: seq<Product>)
    ensures |r| == |products|
  {
    seq(|products|, i requires 0 <= i < |products| => DeductOne(products[i], items))
  }

  /** In the deducted catalog, a product named by the order loses the quantity
      of the FIRST line naming it, floored at 0 and with a missing stock read
      as 0; a product the order does not name is untouched; the catalog keeps
      its size and order. */
  lemma DeductStockSpec(products: seq<Product>, items: seq<OrderItem>, i: nat)
    requires i < |products|
    ensures |DeductStock(products, items)| == |products|
    ensures var p, r := products[i], DeductStock(products, items)[i];
      && (forall j :: 0 <= j < |items| ==> items[j].productId != p.id) ==> r == p
    ensures var p, r := products[i], DeductStock(products, items)[i];
      forall j :: 0 <= j < |items| && items[j].productId == p.id &&
                  (forall k :: 0 <= k < j ==> items[k].productId != p.id) ==>
        r == p.(stock := Some(Max0(StockOrZero(p) - items[j].quantity)))
  {
    var p := products[i];
    forall j | 0 <= j < |items| && items[j].productId == p.id &&
               (forall k :: 0 <= k < j ==> items[k].productId != p.id)
      ensures FirstItemFor(items, p.id) == Some(items[j])
    {
      FindAtFirstIndex(items, (it: OrderItem) => it.productId == p.id, j);
    }
  }

  /** A product named by the order never ends with a negative stock. */
  lemma DeductedStockNonNegative(products: seq<Product>, items: seq<OrderItem>, i: nat)
    requires i < |products|
    requires exists j :: 0 <= j < |items| && items[j].productId == products[i].id
    ensures DeductStock(products, items)[i].stock.Some?
    ensures DeductStock(products, items)[i].stock.value >= 0
  {
  }

  /** If every stock was present and non-negative (as after loading), it stays so. */
  lemma DeductKeepsStocksNonNegative(products: seq<Product>, items: seq<OrderItem>)
    requires forall i :: 0 <= i < |products| ==> products[i].stock.Some? && products[i].stock.value >= 0
    ensures var r := DeductStock(products, items);
      forall i :: 0 <= i < |r| ==> r[i].stock.Some? && r[i].stock.value >= 0
  {
  }

  /** A later line for a product the order already names has no effect on the stock. */
  lemma DuplicateLineIgnored(products: seq<Product>, items: seq<OrderItem>, extra: OrderItem)
    requires exists j :: 0 <= j < |items| && items[j].productId == extra.productId
    ensures DeductStock(products, items + [extra]) == DeductStock(products, items)
  {
    var a, b := DeductStock(products, items + [extra]), DeductStock(products, items);
    forall i | 0 <= i < |products|
      ensures a[i] == b[i]
    {
      var p := products[i];
      var named := (it: OrderItem) => it.productId == p.id;
      if exists j :: 0 <= j < |items| && named(items[j]) {
        FindAppend(items, [extra], named);
      } else {
        assert FirstItemFor(items, p.id).None?;
        assert forall j :: 0 <= j < |items + [extra]| ==> !named((items + [extra])[j]) by {
          forall j | 0 <= j < |items + [extra]|
            ensures !named((items + [extra])[j])
          {
            if j == |items| {
              var w :| 0 <= w < |items| && items[w].productId == extra.productId;
              assert !named(items[w]);
            }
          }
        }
      }
    }
  }

  /** When the first line for a product asks for no more than its stock,
      the deduction subtracts exactly, with no flooring. The order form does
      not guarantee this: a newly added row has quantity 1 even at stock 0,
      and two rows for one product are clamped separately. */
  lemma DeductWithinStock(products: seq<Product>, items: seq<OrderItem>, i: nat, j: nat)
    requires i < |products| && j < |items|
    requires items[j].productId == products[i].id
    requires forall k :: 0 <= k < j ==> items[k].productId != products[i].id
    requires 0 <= items[j].quantity <= StockOrZero(products[i])
    ensures DeductStock(products, items)[i].stock == Some(StockOrZero(products[i]) - items[j].quantity)
  {
    DeductStockSpec(products, items, i);
  }

  // ------------------------------------------------------------------ orders

  /** One order after `handleUpdateStatus`: the new status, and the courier
      fields when courier data is given. */
  function SetStatus(o: Order, status: OrderStatus, courier: Option<CourierData>): Order {
    match courier
    case None => o.(status := status)
    case Some(c) => o.(status := status, steadfastId := Some(c.id), courierStatus := Some(c.status))
  }

  /** `handleUpdateStatus` over the order list. */
  function UpdateStatus(orders: seq<Order>, id: string, status: OrderStatus, courier: Option<CourierData>): (r: seq<Order>)
    ensures |r| == |orders|
  {
    seq(|orders|, i requires 0 <= i < |orders| => if orders[i].id == id then SetStatus(orders[i], status, courier) else orders[i])
  }

  /** Every order with the id gets the status; its courier fields are
      overwritten exactly when courier data is given; nothing else about it
      changes, and every other order is untouched. Any status is accepted. */
  lemma UpdateStatusSpec(orders: seq<Order>, id: string, status: OrderStatus, courier: Option<CourierData>, i: nat)
    requires i < |orders|
    ensures var o, r := orders[i], UpdateStatus(orders, id, status, courier)[i];
      && (o.id != id ==> r == o)
      && (o.id == id ==> r.status == status)
      && (o.id == id && courier.Some? ==> r.steadfastId == Some(courier.value.id) && r.courierStatus == Some(courier.value.status))
      && (o.id == id && courier.None? ==> r.steadfastId == o.steadfastId && r.courierStatus == o.courierStatus)
      && r.(status := o.status, steadfastId := o.steadfastId, courierStatus := o.courierStatus) == o
  {
  }

  /** An id no order has leaves the list exactly as it was (no phantom order). */
  lemma UpdateStatusUnknownId(orders: seq<Order>, id: string, status: OrderStatus, courier: Option<CourierData>)
    requires forall i :: 0 <= i < |orders| ==> orders[i].id != id
    ensures UpdateStatus(orders, id, status, courier) == orders
  {
  }

  /** Applying the same update twice is applying it once. */
  lemma UpdateStatusIdempotent(orders: seq<Order>, id: string, status: OrderStatus, courier: Option<CourierData>)
    ensures var once := UpdateStatus(orders, id, status, courier);
      UpdateStatus(once, id, status, courier) == once
  {
  }

  /** Status updates never touch items or totals, so consistent totals stay consistent. */
  lemma UpdateStatusKeepsTotals(orders: seq<Order>, id: string, status: OrderStatus, courier: Option<CourierData>)
    requires forall i :: 0 <= i < |orders| ==> TotalConsistent(orders[i])
    ensures var r := UpdateStatus(orders, id, status, courier);
      forall i :: 0 <= i < |r| ==> TotalConsistent(r[i])
  {
  }

  // ------------------------------------------------------------------- leads

  /** One lead after re-assignment: moderator and date set, status reset to new. */
  function Reassign(l: Lead, modId: string, date: string): (r: Lead)
    ensures r.id == l.id && r.moderatorId == modId && r.assignedDate == date && r.status == New
  {
    l.(moderatorId := modId, assignedDate := date, status := New)
  }

  /** Re-assigning an already re-assigned lead to the same moderator and date changes nothing. */
  lemma ReassignIdempotent(l: Lead, modId: string, date: string)
    ensures Reassign(Reassign(l, modId, date), modId, date) == Reassign(l, modId, date)
  {
  }

  /** What `handleBulkUpdateLeads` should produce, stated per position: a
      position listed in `indices` is re-assigned, every other position is
      unchanged; indices outside the list name no position. */
  function BulkReassigned(leads: seq<Lead>, indices: seq<int>, modId: string, date: string): (r: seq<Lead>)
    ensures |r| == |leads|
  {
    seq(|leads|, k requires 0 <= k < |leads| => if k in indices then Reassign(leads[k], modId, date) else leads[k])
  }

  /** `handleBulkUpdateLeads` (App.tsx:142-157): copy the list, then for each
      index in turn overwrite the entry there if one exists. */
  method BulkReassign(leads: seq<Lead>, indices: seq<int>, modId: string, date: string) returns (newList: seq<Lead>)
    ensures newList == BulkReassigned(leads, indices, modId, date)
  {
    newList := leads;
    var n := 0;
    while n < |indices|
      invariant 0 <= n <= |indices|
      invariant |newList| == |leads|
      invariant forall k :: 0 <= k < |leads| ==>
        newList[k] == if k in indices[..n] then Reassign(leads[k], modId, date) else leads[k]
    {
      var idx := indices[n];
      if 0 <= idx < |newList| {
        newList := newList[idx := Reassign(newList[idx], modId, date)];
      }
      assert indices[..n + 1] == indices[..n] + [idx];
      n := n + 1;
    }
    assert indices[..n] == indices;
  }

  /** The example of a bulk re-assignment: leads at positions 0 and 2 go to
      moderator m2 on 2024-01-05 with status new whatever their status was;
      an out-of-range index is skipped and a repeated one does nothing more. */
  lemma BulkReassignExample(a: Lead, b: Lead, c: Lead)
    ensures var r := BulkReassigned([a, b, c], [0, 2, 7, -1, 2], "m2", "2024-01-05");
      r == [Reassign(a, "m2", "2024-01-05"), b, Reassign(c, "m2", "2024-01-05")]
  {
    var r := BulkReassigned([a, b, c], [0, 2, 7, -1, 2], "m2", "2024-01-05");
    assert 0 in [0, 2, 7, -1, 2] && 2 in [0, 2, 7, -1, 2];
    assert 1 !in [0, 2, 7, -1, 2];
  }

  /** Bulk re-assignment: listed positions are overwritten, others unchanged,
      out-of-range indices skipped, repeated indices have no extra effect. */
  lemma BulkReassignedSpec(leads: seq<Lead>, indices: seq<int>, modId: string, date: string, extra: int)
    requires extra in indices || extra < 0 || extra >= |leads|
    ensures BulkReassigned(leads, indices + [extra], modId, date) == BulkReassigned(leads, indices, modId, date)
  {
    var a, b := BulkReassigned(leads, indices + [extra], modId, date), BulkReassigned(leads, indices, modId, date);
    forall k | 0 <= k < |leads|
      ensures a[k] == b[k]
    {
      assert (k in indices + [extra]) == (k in indices);
    }
  }

  /** `handleUpdateLeadStatus`: only the status of leads with that id changes. */
  function SetLeadStatus(leads: seq<Lead>, id: string, status: LeadStatus): (r: seq<Lead>)
    ensures |r| == |leads|
    ensures forall i :: 0 <= i < |r| ==> r[i].(status := leads[i].status) == leads[i]
    ensures forall i :: 0 <= i < |r| ==> r[i].status == if leads[i].id == id then status else leads[i].status
  {
    seq(|leads|, i requires 0 <= i < |leads| => if leads[i].id == id then leads[i].(status := status) else leads[i])
  }

  /** `handleDeleteLead`: exactly the leads with that id go, the rest keep their order. */
  function DeleteLead(leads: seq<Lead>, id: string): (r: seq<Lead>)
    ensures forall i :: 0 <= i < |r| ==> r[i].id != id && r[i] in leads
    ensures forall i :: 0 <= i < |leads| && leads[i].id != id ==> leads[i] in r
  {
    Filter(leads, (l: Lead) => l.id != id)
  }

  /** Deleting distributes over the list's parts, so the survivors keep their order. */
  lemma DeleteLeadKeepsOrder(front: seq<Lead>, back: seq<Lead>, id: string)
    ensures DeleteLead(front + back, id) == DeleteLead(front, id) + DeleteLead(back, id)
  {
    FilterAppend(front, back, (l: Lead) => l.id != id);
  }

  /** Deleting an id no lead has changes nothing. */
  lemma DeleteLeadUnknown(leads: seq<Lead>, id: string)
    requires forall i :: 0 <= i < |leads| ==> leads[i].id != id
    ensures DeleteLead(leads, id) == leads
  {
    FilterKeepsAll(leads, (l: Lead) => l.id != id);
  }

  // ------------------------------------------------------------------- store

  /** The store's lists. `activeTab` is the screen shown next; the handlers
      that switch screens set it. */
  class AppStore {
    var products: seq<Product>
    var orders: seq<Order>
    var leads: seq<Lead>
    var moderators: seq<User>
    var activeTab: string

    /** Start from the stored snapshots, each `None` when nothing is stored
        (the fixtures are used then, and no leads); products get a stock. */
    constructor (savedProducts: Option<seq<Product>>, savedModerators: Option<seq<User>>,
                 savedOrders: Option<seq<Order>>, savedLeads: Option<seq<Lead>>)
      ensures products == LoadProducts(savedProducts.GetOr(Constants.INITIAL_PRODUCTS))
      ensures moderators == savedModerators.GetOr(Constants.INITIAL_MODERATORS)
      ensures orders == savedOrders.GetOr(Constants.MOCK_ORDERS)
      ensures leads == savedLeads.GetOr([])
      ensures activeTab == "dashboard"
    {
      products := LoadProducts(savedProducts.GetOr(Constants.INITIAL_PRODUCTS));
      moderators := savedModerators.GetOr(Constants.INITIAL_MODERATORS);
      orders := savedOrders.GetOr(Constants.MOCK_ORDERS);
      leads := savedLeads.GetOr([]);
      activeTab := "dashboard";
    }

    /** `handleCreateOrder`: deduct stock, append the order, show the order list. */
    method CreateOrder(newOrder: Order)
      modifies this
      ensures products == DeductStock(old(products), newOrder.items)
      ensures orders == old(orders) + [newOrder]
      ensures leads == old(leads) && moderators == old(moderators)
      ensures activeTab == "orders"
    {
      products := DeductStock(products, newOrder.items);
      orders := orders + [newOrder];
      activeTab := "orders";
    }

    method UpdateOrderStatus(orderId: string, newStatus: OrderStatus, courierData: Option<CourierData>)
      modifies this
      ensures orders == UpdateStatus(old(orders), orderId, newStatus, courierData)
      ensures products == old(products) && leads == old(leads)
      ensures moderators == old(moderators) && activeTab == old(activeTab)
    {
      orders := UpdateStatus(orders, orderId, newStatus, courierData);
    }

    method AddModerator(newMod: User)
      modifies this
      ensures moderators == old(moderators) + [newMod]
      ensures products == old(products) && orders == old(orders)
      ensures leads == old(leads) && activeTab == old(activeTab)
    {
      moderators := moderators + [newMod];
    }

    method AddNewProduct(newProduct: Product)
      modifies this
      ensures products == AddProduct(old(products), newProduct)
      ensures orders == old(orders) && leads == old(leads)
      ensures moderators == old(moderators) && activeTab == old(activeTab)
    {
      products := AddProduct(products, newProduct);
    }

    method UpdateProduct(updatedProduct: Product)
      modifies this
      ensures products == ReplaceProduct(old(products), updatedProduct)
      ensures orders == old(orders) && leads == old(leads)
      ensures moderators == old(moderators) && activeTab == old(activeTab)
    {
      products := ReplaceProduct(products, updatedProduct);
    }

    method DeleteProduct(productId: string)
      modifies this
      ensures products == RemoveProduct(old(products), productId)
      ensures orders == old(orders) && leads == old(leads)
      ensures moderators == old(moderators) && activeTab == old(activeTab)
    {
      products := RemoveProduct(products, productId);
    }

    method AssignLeads(newLeads: seq<Lead>)
      modifies this
      ensures leads == old(leads) + newLeads
      ensures products == old(products) && orders == old(orders)
      ensures moderators == old(moderators) && activeTab == old(activeTab)
    {
      leads := leads + newLeads;
    }

    method BulkUpdateLeads(indices: seq<int>, modId: string, date: string)
      modifies this
      ensures leads == BulkReassigned(old(leads), indices, modId, date)
      ensures products == old(products) && orders == old(orders)
      ensures moderators == old(moderators) && activeTab == old(activeTab)
    {
      leads := BulkReassign(leads, indices, modId, date);
    }

    method UpdateLeadStatus(leadId: string, status: LeadStatus)
      modifies this
      ensures leads == SetLeadStatus(old(leads), leadId, status)
      ensures products == old(products) && orders == old(orders)
      ensures moderators == old(moderators) && activeTab == old(activeTab)
    {
      leads := SetLeadStatus(leads, leadId, status);
    }

    method RemoveLead(leadId: string)
      modifies this
      ensures leads == DeleteLead(old(leads), leadId)
      ensures products == old(products) && orders == old(orders)
      ensures moderators == old(moderators) && activeTab == old(activeTab)
    {
      leads := DeleteLead(leads, leadId);
    }
  }

  /** With no stored catalog, every product of the initial catalog is loaded
      with stock 50. */
  lemma InitialCatalogStock()
    ensures var ps := LoadProducts(Constants.INITIAL_PRODUCTS);
      |ps| == 9 && forall i :: 0 <= i < |ps| ==> ps[i].stock == Some(50)
  {
  }
}
