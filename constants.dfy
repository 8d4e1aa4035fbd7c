/** The fixtures the panel starts from: the spice catalog, the two demo
    moderators, the admin account, two mock orders and the status colours. */
module Constants {
  import opened Wrappers
  import opened Domain

  const INITIAL_PRODUCTS: seq<Product> := [
    Product("p1", "CHILI-500", "🌶️ মিষ্টি মরিচ (Sweet Chili Powder) - 500g", 550, None),
    Product("p2", "CHILI-1KG", "🌶️ মিষ্টি মরিচ (Sweet Chili Powder) - 1kg", 950, None),
    Product("p3", "G-MASALA-200", "👑 শাহী গরম মসলা (Shahi Garam Masala) - 200g", 650, None),
    Product("p4", "G-MASALA-500", "👑 শাহী গরম মসলা (Shahi Garam Masala) - 500g", 1424, None),
    Product("p5", "TURM-500", "💛 দেশি হলুদের গুঁড়া (Turmeric Powder) - 500g", 290, None),
    Product("p6", "CORI-500", "🌿 দেশি ধনিয়া গুঁড়া (Coriander Powder) - 500g", 250, None),
    Product("p7", "CUMIN-500", "🌾 দেশি জিরা গুঁড়া (Cumin Powder) - 500g", 780, None),
    Product("p8", "MEZBAN-200", "🍖 মেজবানি মাংসের মসলা (Mezban Masala) - 200g", 680, None),
    Product("p9", "MEZBAN-500", "🍖 মেজবানি মাংসের মসলা (Mezban Masala) - 500g", 1480, None)
  ]

  const INITIAL_MODERATORS: seq<User> := [
    User("m1", "Rahim Ahmed", "rahim@test.com", Moderator),
    User("m2", "Sumit Das", "sumit@test.com", Moderator)
  ]

  const ADMIN_USER: User := User("a1", "System Admin", "admin@test.com", Admin)

  /** The two mock orders; `createdAt` is computed from the clock in the
      source, so it is left as an empty placeholder here. */
  const MOCK_ORDERS: seq<Order> := [
    Order("ORD-1021", "m1", "Karim Ullah", "01712345678", "Mirpur, Dhaka",
          [OrderItem("oi1", "p1", 1, 550), OrderItem("oi2", "p3", 1, 650)],
          1200, Pending, "", None, None, None),
    Order("ORD-1022", "m2", "Jannat Begum", "01987654321", "Uttara, Dhaka",
          [OrderItem("oi3", "p4", 1, 1424)],
          1424, Confirmed, "", None, None, None)
  ]

  /** The badge classes shown for each status. */
  const STATUS_COLORS: map<OrderStatus, string> := map[
    Pending := "bg-yellow-100 text-yellow-800",
    Confirmed := "bg-blue-100 text-blue-800",
    Delivered := "bg-green-100 text-green-800",
    Cancelled := "bg-red-100 text-red-800"
  ]

  /** Each mock order's total is the sum of its lines (1200 and 1424). */
  lemma MockTotalsConsistent()
    ensures forall i :: 0 <= i < |MOCK_ORDERS| ==> TotalConsistent(MOCK_ORDERS[i])
    ensures MOCK_ORDERS[0].totalAmount == 1200 && MOCK_ORDERS[1].totalAmount == 1424
  {
    assert ItemsTotal(MOCK_ORDERS[0].items) == 1200;
    assert ItemsTotal(MOCK_ORDERS[1].items) == 1424;
  }

  /** The catalog ids p1..p9 are pairwise distinct. */
  lemma ProductIdsDistinct()
    ensures forall i, j :: 0 <= i < j < |INITIAL_PRODUCTS| ==> INITIAL_PRODUCTS[i].id != INITIAL_PRODUCTS[j].id
  {
  }

  /** Every line of `o` names a product of `ps` and carries its price. */
  predicate PricedFromCatalog(o: Order, ps: seq<Product>) {
    forall k :: 0 <= k < |o.items| ==>
      exists j :: 0 <= j < |ps| && ps[j].id == o.items[k].productId && ps[j].price == o.items[k].price
  }

  /** Every mock line names a catalog product and carries that product's
      price (the ids being distinct, it is THE product with that id). */
  lemma MockItemsMatchCatalog()
    ensures PricedFromCatalog(MOCK_ORDERS[0], INITIAL_PRODUCTS)
    ensures PricedFromCatalog(MOCK_ORDERS[1], INITIAL_PRODUCTS)
  {
    var ps, o0, o1 := INITIAL_PRODUCTS, MOCK_ORDERS[0], MOCK_ORDERS[1];
    assert ps[0].id == o0.items[0].productId && ps[0].price == o0.items[0].price;
    assert ps[2].id == o0.items[1].productId && ps[2].price == o0.items[1].price;
    assert ps[3].id == o1.items[0].productId && ps[3].price == o1.items[0].price;
  }

  /** The status colour table has an entry for every status. */
  lemma StatusColorsTotal()
    ensures forall s: OrderStatus :: s in STATUS_COLORS
  {
    forall s: OrderStatus
      ensures s in STATUS_COLORS
    {
      match s
      case Pending => case Confirmed => case Delivered => case Cancelled =>
    }
  }

  /** The mock orders belong to the two demo moderators, and the admin's email
      is not a moderator's. */
  lemma FixtureUsersConsistent()
    ensures forall i :: 0 <= i < |MOCK_ORDERS| ==>
      exists j :: 0 <= j < |INITIAL_MODERATORS| && INITIAL_MODERATORS[j].id == MOCK_ORDERS[i].moderatorId
    ensures forall j :: 0 <= j < |INITIAL_MODERATORS| ==> INITIAL_MODERATORS[j].email != ADMIN_USER.email
  {
    assert INITIAL_MODERATORS[0].id == MOCK_ORDERS[0].moderatorId;
    assert INITIAL_MODERATORS[1].id == MOCK_ORDERS[1].moderatorId;
  }
}
