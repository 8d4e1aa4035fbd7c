/** The order-entry form of `components/OrderForm.tsx`: the cart rows being
    edited, their total, and the construction of the order on submit. */
module OrderForm {
  import opened Wrappers
  import opened Seqs
  import opened Strings
  import opened Domain
  import Store

  /** A row of the cart: which product, how many. */
  datatype CartRow = CartRow(productId: string, quantity: int)

  datatype SubmitError =
    | EmptyCart       // "Please add at least one product."
    | UnknownProduct  // reading the price of a product `find` did not return throws

  /** `product?.stock ?? 0`: the stock of the named product, 0 when the
      product is unknown or has no stock recorded. */
  function StockLimit(products: seq<Product>, productId: string): (r: int)
    ensures (forall j :: 0 <= j < |products| ==> products[j].id != productId) ==> r == 0
  {
    match FindProduct(products, productId)
    case None => 0
    case Some(p) => p.stock.GetOr(0)
  }

  /** For a product in the catalog, the limit is the stock of the first
      product with that id, 0 when it has none recorded. */
  lemma StockLimitKnown(products: seq<Product>, productId: string, j: nat)
    requires j < |products| && products[j].id == productId
    requires forall k :: 0 <= k < j ==> products[k].id != productId
    ensures StockLimit(products, productId) == products[j].stock.GetOr(0)
  {
    FindProductAt(products, productId, j);
  }

  /** `Math.min(Math.max(1, quantity), stockLimit)`. */
  function ClampQuantity(quantity: int, stockLimit: int): (r: int)
    ensures r <= stockLimit
    ensures stockLimit >= 1 ==> 1 <= r
    ensures stockLimit < 1 ==> r == stockLimit
    ensures 1 <= quantity <= stockLimit ==> r == quantity
    ensures quantity > stockLimit ==> r == stockLimit
    ensures quantity < 1 && stockLimit >= 1 ==> r == 1
  {
    var atLeastOne := if quantity < 1 then 1 else quantity;
    if atLeastOne < stockLimit then atLeastOne else stockLimit
  }

  /** The "only N units available" notice is raised exactly when the request
      exceeds the stock; the row is then reduced to the stock, not rejected. */
  function StockNotice(quantity: int, stockLimit: int): (r: Option<int>)
    ensures r.Some? <==> quantity > stockLimit
    ensures r.Some? ==> r.value == stockLimit && ClampQuantity(quantity, stockLimit) == stockLimit
  {
    if quantity > stockLimit then Some(stockLimit) else None
  }

  /** `selectedItems.filter((_, i) => i !== index)`. */
  function RemoveAt(rows: seq<CartRow>, index: int): (r: seq<CartRow>)
    ensures 0 <= index < |rows| ==> |r| == |rows| - 1
    ensures 0 <= index < |rows| ==> forall k :: 0 <= k < index ==> r[k] == rows[k]
    ensures 0 <= index < |rows| ==> forall k :: index <= k < |r| ==> r[k] == rows[k + 1]
    ensures !(0 <= index < |rows|) ==> r == rows
  {
    if 0 <= index < |rows| then rows[..index] + rows[index + 1..] else rows
  }

  /** What a row contributes to `calculateTotal`: catalog price × quantity,
      or 0 when the product is not in the catalog. */
  function RowAmount(products: seq<Product>, row: CartRow): int {
    match FindProduct(products, row.productId)
    case None => 0
    case Some(p) => p.price * row.quantity
  }

  /** `calculateTotal`. */
  function CartTotal(products: seq<Product>, rows: seq<CartRow>): int {
    if rows == [] then 0 else RowAmount(products, rows[0]) + CartTotal(products, rows[1..])
  }

  /** The total of a cart is the sum of the totals of its parts. */
  lemma {:induction false} CartTotalAppend(products: seq<Product>, a: seq<CartRow>, b: seq<CartRow>)
    ensures CartTotal(products, a + b) == CartTotal(products, a) + CartTotal(products, b)
  {
    if a == [] {
      assert a + b == b;
    } else {
      assert (a + b)[1..] == a[1..] + b;
      CartTotalAppend(products, a[1..], b);
    }
  }

  /** Every row names a product of the catalog. */
  predicate AllRowsKnown(products: seq<Product>, rows: seq<CartRow>) {
    forall i :: 0 <= i < |rows| ==> FindProduct(products, rows[i].productId).Some?
  }

  /** The id of the line at position `idx`: `oi-${Date.now()}-${idx}`, the
      clock reading being the parameter `stamp`. */
  function ItemId(stamp: string, idx: nat): string {
    "oi-" + stamp + "-" + NatToString(idx)
  }

  /** Lines of one order get different ids. */
  lemma ItemIdsDistinct(stamp: string, a: nat, b: nat)
    requires a != b
    ensures ItemId(stamp, a) != ItemId(stamp, b)
  {
    if ItemId(stamp, a) == ItemId(stamp, b) {
      PrefixCancel("oi-" + stamp + "-", NatToString(a), NatToString(b));
      NatToStringInjective(a, b);
    }
  }

  /** The order lines built from the rows, the first of them at position `start`. */
  function BuildItems(products: seq<Product>, rows: seq<CartRow>, stamp: string, start: nat): (r: seq<OrderItem>)
    requires AllRowsKnown(products, rows)
    ensures |r| == |rows|
  {
    if rows == [] then []
    else
      [OrderItem(ItemId(stamp, start), rows[0].productId, rows[0].quantity,
                 FindProduct(products, rows[0].productId).value.price)]
      + BuildItems(products, rows[1..], stamp, start + 1)
  }

  /** Line `k` of the built order copies row `k`'s product and quantity and
      captures that product's current catalog price. */
  lemma {:induction false} BuildItemsAt(products: seq<Product>, rows: seq<CartRow>, stamp: string, start: nat, k: nat)
    requires AllRowsKnown(products, rows)
    requires k < |rows|
    ensures var it := BuildItems(products, rows, stamp, start)[k];
      && it.id == ItemId(stamp, start + k)
      && it.productId == rows[k].productId
      && it.quantity == rows[k].quantity
      && FindProduct(products, rows[k].productId).Some?
      && it.price == FindProduct(products, rows[k].productId).value.price
  {
    if k > 0 {
      BuildItemsAt(products, rows[1..], stamp, start + 1, k - 1);
    }
  }

  /** The built lines sum to the cart total. */
  lemma {:induction false} BuildItemsTotal(products: seq<Product>, rows: seq<CartRow>, stamp: string, start: nat)
    requires AllRowsKnown(products, rows)
    ensures ItemsTotal(BuildItems(products, rows, stamp, start)) == CartTotal(products, rows)
  {
    if rows != [] {
      BuildItemsTotal(products, rows[1..], stamp, start + 1);
      assert BuildItems(products, rows, stamp, start)[1..] == BuildItems(products, rows[1..], stamp, start + 1);
    }
  }

  /** The part of `handleSubmit` that builds the order. `orderNumber` is the
      random number in `ORD-${...}`, `stamp` the clock reading in the line ids
      and `createdAt` the creation time. */
  function BuildOrder(products: seq<Product>, rows: seq<CartRow>, user: User,
                      name: string, phone: string, address: string, notes: string,
                      orderNumber: nat, stamp: string, createdAt: string): (r: Result<Order, SubmitError>)
    ensures rows == [] <==> r == Failure(EmptyCart)
    ensures r == Failure(UnknownProduct) <==> rows != [] && !AllRowsKnown(products, rows)
    ensures r.Success? ==> r.value.status == Pending && r.value.moderatorId == user.id
    ensures r.Success? ==> r.value.customerName == Trim(name) && r.value.customerPhone == Trim(phone)
    ensures r.Success? ==> r.value.customerAddress == Trim(address) && r.value.notes == Some(notes)
    ensures r.Success? ==> r.value.steadfastId.None? && r.value.courierStatus.None?
  {
    if |rows| == 0 then Failure(EmptyCart)
    else if !AllRowsKnown(products, rows) then Failure(UnknownProduct)
    else Success(Order(
      "ORD-" + NatToString(orderNumber), user.id, Trim(name), Trim(phone), Trim(address),
      BuildItems(products, rows, stamp, 0), CartTotal(products, rows), Pending, createdAt,
      Some(notes), None, None))
  }

  /** Lines built from different positions have different ids. */
  lemma BuildItemsDistinctIds(products: seq<Product>, rows: seq<CartRow>, stamp: string, j: nat, k: nat)
    requires AllRowsKnown(products, rows)
    requires j < |rows| && k < |rows| && j != k
    ensures BuildItems(products, rows, stamp, 0)[j].id != BuildItems(products, rows, stamp, 0)[k].id
  {
    BuildItemsAt(products, rows, stamp, 0, j);
    BuildItemsAt(products, rows, stamp, 0, k);
    ItemIdsDistinct(stamp, j, k);
  }

  /** A submitted order has one line per row, in row order, with the row's
      product and quantity, the current catalog price, and distinct line ids. */
  lemma SubmittedItems(products: seq<Product>, rows: seq<CartRow>, user: User,
                       name: string, phone: string, address: string, notes: string,
                       orderNumber: nat, stamp: string, createdAt: string, k: nat)
    requires BuildOrder(products, rows, user, name, phone, address, notes, orderNumber, stamp, createdAt).Success?
    requires k < |rows|
    ensures var o := BuildOrder(products, rows, user, name, phone, address, notes, orderNumber, stamp, createdAt).value;
      && |o.items| == |rows|
      && o.items[k].productId == rows[k].productId
      && o.items[k].quantity == rows[k].quantity
      && FindProduct(products, rows[k].productId).Some?
      && o.items[k].price == FindProduct(products, rows[k].productId).value.price
      && forall j :: 0 <= j < |rows| && j != k ==> o.items[j].id != o.items[k].id
  {
    var o := BuildOrder(products, rows, user, name, phone, address, notes, orderNumber, stamp, createdAt).value;
    var items := BuildItems(products, rows, stamp, 0);
    assert o.items == items;
    BuildItemsAt(products, rows, stamp, 0, k);
    forall j | 0 <= j < |rows| && j != k
      ensures items[j].id != items[k].id
    {
      BuildItemsDistinctIds(products, rows, stamp, j, k);
    }
  }

  /** A submitted order's total is the cart total, which is Σ price × quantity
      over its own lines: the order satisfies the total invariant. */
  lemma SubmittedTotal(products: seq<Product>, rows: seq<CartRow>, user: User,
                       name: string, phone: string, address: string, notes: string,
                       orderNumber: nat, stamp: string, createdAt: string)
    requires BuildOrder(products, rows, user, name, phone, address, notes, orderNumber, stamp, createdAt).Success?
    ensures var o := BuildOrder(products, rows, user, name, phone, address, notes, orderNumber, stamp, createdAt).value;
      o.totalAmount == CartTotal(products, rows) && TotalConsistent(o)
  {
    BuildItemsTotal(products, rows, stamp, 0);
  }

  /** The customer fields stored on a submitted order carry no surrounding
      white space: trimming them again changes nothing. */
  lemma SubmittedFieldsTrimmed(products: seq<Product>, rows: seq<CartRow>, user: User,
                               name: string, phone: string, address: string, notes: string,
                               orderNumber: nat, stamp: string, createdAt: string)
    requires BuildOrder(products, rows, user, name, phone, address, notes, orderNumber, stamp, createdAt).Success?
    ensures var o := BuildOrder(products, rows, user, name, phone, address, notes, orderNumber, stamp, createdAt).value;
      && Trim(o.customerName) == o.customerName
      && Trim(o.customerPhone) == o.customerPhone
      && Trim(o.customerAddress) == o.customerAddress
  {
    TrimIdempotent(name);
    TrimIdempotent(phone);
    TrimIdempotent(address);
  }

  /** The form's state. The catalog and the signed-in user are properties
      handed in by the caller. */
  class OrderFormState {
    var customerName: string
    var customerPhone: string
    var customerAddress: string
    var selectedItems: seq<CartRow>
    var notes: string

    constructor ()
      ensures customerName == "" && customerPhone == "" && customerAddress == ""
      ensures selectedItems == [] && notes == ""
    {
      customerName, customerPhone, customerAddress := "", "", "";
      selectedItems, notes := [], "";
    }

    /** `addItem`: a row for the first catalog product, quantity 1; nothing on an empty catalog. */
    method AddItem(products: seq<Product>)
      modifies this
      ensures |products| == 0 ==> selectedItems == old(selectedItems)
      ensures |products| > 0 ==> selectedItems == old(selectedItems) + [CartRow(products[0].id, 1)]
      ensures customerName == old(customerName) && customerPhone == old(customerPhone)
      ensures customerAddress == old(customerAddress) && notes == old(notes)
    {
      if |products| == 0 {
        return;
      }
      selectedItems := selectedItems + [CartRow(products[0].id, 1)];
    }

    /** `removeItem`. */
    method RemoveItem(index: int)
      modifies this
      ensures selectedItems == RemoveAt(old(selectedItems), index)
      ensures customerName == old(customerName) && customerPhone == old(customerPhone)
      ensures customerAddress == old(customerAddress) && notes == old(notes)
    {
      selectedItems := RemoveAt(selectedItems, index);
    }

    /** `updateItem`: the row at `index` (a position the form renders) takes
        the product and the clamped quantity; `notice` is the stock figure of
        the "only N units available" alert when one is raised. */
    method UpdateItem(products: seq<Product>, index: int, productId: string, quantity: int) returns (notice: Option<int>)
      requires 0 <= index < |selectedItems|
      modifies this
      ensures |selectedItems| == |old(selectedItems)|
      ensures selectedItems[index] == CartRow(productId, ClampQuantity(quantity, StockLimit(products, productId)))
      ensures forall k :: 0 <= k < |selectedItems| && k != index ==> selectedItems[k] == old(selectedItems)[k]
      ensures notice == StockNotice(quantity, StockLimit(products, productId))
      ensures customerName == old(customerName) && customerPhone == old(customerPhone)
      ensures customerAddress == old(customerAddress) && notes == old(notes)
    {
      var stockLimit := StockLimit(products, productId);
      var newItems := selectedItems;
      var finalQty := ClampQuantity(quantity, stockLimit);
      notice := None;
      if quantity > stockLimit {
        notice := Some(stockLimit);
      }
      newItems := newItems[index := CartRow(productId, finalQty)];
      selectedItems := newItems;
    }

    /** `handleSubmit`: on success the order is handed to the caller
        (`onOrderCreate`) and the form is reset; an empty cart, or a row whose
        product has left the catalog, creates nothing and changes nothing. */
    method Submit(products: seq<Product>, user: User, orderNumber: nat, stamp: string, createdAt: string)
      returns (r: Result<Order, SubmitError>)
      requires 1000 <= orderNumber <= 9999
      modifies this
      ensures r == BuildOrder(products, old(selectedItems), user, old(customerName), old(customerPhone),
                              old(customerAddress), old(notes), orderNumber, stamp, createdAt)
      ensures r.Success? ==> customerName == "" && customerPhone == "" && customerAddress == ""
      ensures r.Success? ==> selectedItems == [] && notes == ""
      ensures r.Failure? ==> customerName == old(customerName) && customerPhone == old(customerPhone)
      ensures r.Failure? ==> customerAddress == old(customerAddress) && notes == old(notes)
      ensures r.Failure? ==> selectedItems == old(selectedItems)
    {
      var rows, name, phone, address, note := selectedItems, customerName, customerPhone, customerAddress, notes;
      r := BuildOrder(products, rows, user, name, phone, address, note, orderNumber, stamp, createdAt);
      if r.Success? {
        Reset();
      }
    }

    /** The form after a successful submit: every field empty again. */
    method Reset()
      modifies this
      ensures customerName == "" && customerPhone == "" && customerAddress == ""
      ensures selectedItems == [] && notes == ""
    {
      customerName, customerPhone, customerAddress := "", "", "";
      selectedItems, notes := [], "";
    }
  }

  /** A catalog with p1 at stock 10 and price 550: a cart of three p1 costs
      1650; a request for 50 is cut to 10 with a notice. */
  lemma CartExample(p1: Product)
    requires p1 == Product("p1", "CHILI-500", "Sweet Chili Powder - 500g", 550, Some(10))
    ensures CartTotal([p1], [CartRow("p1", 3)]) == 1650
    ensures ClampQuantity(50, StockLimit([p1], "p1")) == 10
    ensures StockNotice(50, StockLimit([p1], "p1")) == Some(10)
  {
    assert FindProduct([p1], "p1") == Some(p1);
  }

  /** Creating an order for three p1 from a catalog where p1 has stock 10 and
      price 550: the order is PENDING with total 1650, and p1's stock becomes 7. */
  lemma OrderCreationExample(p1: Product, user: User, name: string, phone: string, address: string,
                             orderNumber: nat, stamp: string, createdAt: string)
    requires p1 == Product("p1", "CHILI-500", "Sweet Chili Powder - 500g", 550, Some(10))
    ensures var r := BuildOrder([p1], [CartRow("p1", 3)], user, name, phone, address, "", orderNumber, stamp, createdAt);
      && r.Success? && r.value.totalAmount == 1650 && r.value.status == Pending
      && Store.DeductStock([p1], r.value.items)[0].stock == Some(7)
  {
    var rows := [CartRow("p1", 3)];
    assert FindProduct([p1], "p1") == Some(p1);
    assert CartTotal([p1], rows) == 1650;
    var r := BuildOrder([p1], rows, user, name, phone, address, "", orderNumber, stamp, createdAt);
    var items := BuildItems([p1], rows, stamp, 0);
    BuildItemsAt([p1], rows, stamp, 0, 0);
    assert r.value.items == items;
    Store.DeductStockSpec([p1], items, 0);
  }
}
