/** The records the panel works on: products, orders and their items, leads
    and users, and the role-based scoping that several screens share. */
module Domain {
  import opened Wrappers
  import opened Seqs

  datatype OrderStatus = Pending | Confirmed | Delivered | Cancelled

  /** `UserRole.ADMIN` (whose value is the string `'admin'`) and `UserRole.MODERATOR`. */
  datatype UserRole = Admin | Moderator

  /** A lead's call status, `'new'` or `'called'`. */
  datatype LeadStatus = New | Called

  /** A catalog entry; `stock` may be absent from a stored or edited record. */
  datatype Product = Product(id: string, sku: string, name: string, price: int, stock: Option<int>)

  /** A line of an order, with the unit price captured when the order was made. */
  datatype OrderItem = OrderItem(id: string, productId: string, quantity: int, price: int)

  /** An order; `steadfastId` and `courierStatus` appear after a courier sync. */
  datatype Order = Order(
    id: string,
    moderatorId: string,
    customerName: string,
    customerPhone: string,
    customerAddress: string,
    items: seq<OrderItem>,
    totalAmount: int,
    status: OrderStatus,
    createdAt: string,
    notes: Option<string>,
    steadfastId: Option<string>,
    courierStatus: Option<string>)

  /** The consignment data a courier sync hands to the status update. */
  datatype CourierData = CourierData(id: string, status: string)

  datatype Lead = Lead(id: string, moderatorId: string, assignedDate: string, status: LeadStatus)

  datatype User = User(id: string, name: string, email: string, role: UserRole)

  predicate IsAdmin(u: User) {
    u.role == Admin
  }

  /** The catalog entry a product id refers to (`products.find(p => p.id === id)`). */
  function FindProduct(products: seq<Product>, id: string): (r: Option<Product>)
    ensures r.None? <==> forall j :: 0 <= j < |products| ==> products[j].id != id
    ensures r.Some? ==> r.value in products && r.value.id == id
  {
    Find(products, (p: Product) => p.id == id)
  }

  /** The product found is the one at the first position carrying the id. */
  lemma FindProductAt(products: seq<Product>, id: string, i: nat)
    requires i < |products| && products[i].id == id
    requires forall j :: 0 <= j < i ==> products[j].id != id
    ensures FindProduct(products, id) == Some(products[i])
  {
    FindAtFirstIndex(products, (p: Product) => p.id == id, i);
  }

  /** Σ price × quantity over an order's items. */
  function ItemsTotal(items: seq<OrderItem>): int {
    if items == [] then 0 else items[0].price * items[0].quantity + ItemsTotal(items[1..])
  }

  /** The bookkeeping invariant: an order's total is the sum of its lines. */
  predicate TotalConsistent(o: Order) {
    o.totalAmount == ItemsTotal(o.items)
  }

  /** The orders a user may see: all of them for an admin, otherwise the
      user's own. */
  function ScopedOrders(orders: seq<Order>, u: User): (r: seq<Order>)
    ensures IsAdmin(u) ==> r == orders
    ensures !IsAdmin(u) ==> forall i :: 0 <= i < |r| ==> r[i] in orders && r[i].moderatorId == u.id
    ensures !IsAdmin(u) ==> forall i :: 0 <= i < |orders| && orders[i].moderatorId == u.id ==> orders[i] in r
  {
    if IsAdmin(u) then orders else Filter(orders, (o: Order) => o.moderatorId == u.id)
  }

  /** The leads a user may see, scoped like the orders. */
  function ScopedLeads(leads: seq<Lead>, u: User): (r: seq<Lead>)
    ensures IsAdmin(u) ==> r == leads
    ensures !IsAdmin(u) ==> forall i :: 0 <= i < |r| ==> r[i] in leads && r[i].moderatorId == u.id
    ensures !IsAdmin(u) ==> forall i :: 0 <= i < |leads| && leads[i].moderatorId == u.id ==> leads[i] in r
  {
    if IsAdmin(u) then leads else Filter(leads, (l: Lead) => l.moderatorId == u.id)
  }
}
