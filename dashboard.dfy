/** The statistics of `components/Dashboard.tsx`, computed over the orders
    and leads the user may see. */
module Dashboard {
  import opened Seqs
  import opened Domain

  /** The number of orders with the given status. */
  function CountStatus(orders: seq<Order>, s: OrderStatus): (r: nat)
    ensures r <= |orders|
  {
    |Filter(orders, (o: Order) => o.status == s)|
  }

  /** "Confirmed" counts confirmed and delivered orders. */
  function ConfirmedCount(orders: seq<Order>): (r: nat)
    ensures r <= |orders|
  {
    |Filter(orders, (o: Order) => o.status == Confirmed || o.status == Delivered)|
  }

  /** `Math.round(confirmed / total * 100)`, or 0 without orders, computed
      exactly: round half up of 100·confirmed/total. */
  function ConfirmationRate(confirmed: nat, total: nat): (r: int)
    requires confirmed <= total
    ensures 0 <= r <= 100
    ensures total == 0 ==> r == 0
    ensures total > 0 ==> 2 * r * total <= 200 * confirmed + total < 2 * (r + 1) * total
  {
    if total > 0 then
      var q := (200 * confirmed + total) / (2 * total);
      RoundingBounds(confirmed, total, q);
      q
    else 0
  }

  lemma RoundingBounds(confirmed: nat, total: nat, q: int)
    requires 0 < total && confirmed <= total
    requires q == (200 * confirmed + total) / (2 * total)
    ensures 0 <= q <= 100
    ensures 2 * q * total <= 200 * confirmed + total < 2 * (q + 1) * total
  {
    var n, d := 200 * confirmed + total, 2 * total;
    var m := n % d;
    assert n == d * q + m && 0 <= m < d;
    assert 2 * q * total == d * q;
    assert 2 * (q + 1) * total == d * q + d;
  }

  /** Σ totalAmount, cancelled orders included. */
  function Revenue(orders: seq<Order>): int {
    if orders == [] then 0 else orders[0].totalAmount + Revenue(orders[1..])
  }

  lemma {:induction false} RevenueAppend(a: seq<Order>, b: seq<Order>)
    ensures Revenue(a + b) == Revenue(a) + Revenue(b)
  {
    if a == [] {
      assert a + b == b;
    } else {
      assert (a + b)[1..] == a[1..] + b;
      RevenueAppend(a[1..], b);
    }
  }

  /** Revenue splits into that of the cancelled and of the other orders: a
      cancelled order still counts. */
  lemma {:induction false} RevenueCountsCancelled(orders: seq<Order>)
    ensures Revenue(orders) == Revenue(Filter(orders, (o: Order) => o.status != Cancelled))
                               + Revenue(Filter(orders, (o: Order) => o.status == Cancelled))
  {
    if orders != [] {
      var rest := orders[1..];
      RevenueCountsCancelled(rest);
      var keep := (o: Order) => o.status != Cancelled;
      var drop := (o: Order) => o.status == Cancelled;
      var hk := if keep(orders[0]) then [orders[0]] else [];
      var hd := if drop(orders[0]) then [orders[0]] else [];
      RevenueAppend(hk, Filter(rest, keep));
      RevenueAppend(hd, Filter(rest, drop));
    }
  }

  /** The number of leads still to be called. */
  function NewLeadCount(leads: seq<Lead>): (r: nat)
    ensures r <= |leads|
  {
    |Filter(leads, (l: Lead) => l.status == New)|
  }

  /** One bar of the status chart. */
  datatype StatusDatum = StatusDatum(name: string, value: nat, color: string)

  function StatusData(orders: seq<Order>): (r: seq<StatusDatum>)
    ensures |r| == 4
  {
    [ StatusDatum("Pending", CountStatus(orders, Pending), "#FBBF24"),
      StatusDatum("Confirmed", CountStatus(orders, Confirmed), "#3B82F6"),
      StatusDatum("Delivered", CountStatus(orders, Delivered), "#10B981"),
      StatusDatum("Cancelled", CountStatus(orders, Cancelled), "#EF4444") ]
  }

  /** Every order has exactly one of the four statuses, so the four counts
      add up to the number of orders. */
  lemma {:induction false} StatusCountsPartition(orders: seq<Order>)
    ensures CountStatus(orders, Pending) + CountStatus(orders, Confirmed)
          + CountStatus(orders, Delivered) + CountStatus(orders, Cancelled) == |orders|
  {
    if orders != [] {
      StatusCountsPartition(orders[1..]);
    }
  }

  /** "Confirmed" in the stats is the sum of the CONFIRMED and DELIVERED bars. */
  lemma {:induction false} ConfirmedIsConfirmedPlusDelivered(orders: seq<Order>)
    ensures ConfirmedCount(orders) == CountStatus(orders, Confirmed) + CountStatus(orders, Delivered)
  {
    if orders != [] {
      ConfirmedIsConfirmedPlusDelivered(orders[1..]);
    }
  }

  lemma StatusDataSum(orders: seq<Order>)
    ensures var d := StatusData(orders);
      d[0].value + d[1].value + d[2].value + d[3].value == |orders|
    ensures forall k :: 0 <= k < 4 ==> StatusData(orders)[k].value <= |orders|
  {
    StatusCountsPartition(orders);
  }

  /** The figures the dashboard shows. `adminPending` is the admin card
      "Pending", which counts new leads over ALL leads. */
  datatype Stats = Stats(
    totalOrders: nat,
    confirmed: nat,
    pending: nat,
    cancelled: nat,
    confirmationRate: int,
    revenue: int,
    pendingCalls: nat,
    adminPending: nat)

  function ComputeStats(orders: seq<Order>, leads: seq<Lead>, user: User): (r: Stats)
    ensures r.totalOrders == |ScopedOrders(orders, user)|
    ensures r.confirmed <= r.totalOrders && r.pending <= r.totalOrders && r.cancelled <= r.totalOrders
    ensures 0 <= r.confirmationRate <= 100
    ensures r.totalOrders == 0 ==> r.confirmationRate == 0
    ensures r.confirmed == ConfirmedCount(ScopedOrders(orders, user))
    ensures r.pending == CountStatus(ScopedOrders(orders, user), Pending)
    ensures r.cancelled == CountStatus(ScopedOrders(orders, user), Cancelled)
    ensures r.confirmationRate == ConfirmationRate(r.confirmed, r.totalOrders)
    ensures r.revenue == Revenue(ScopedOrders(orders, user))
    ensures r.pendingCalls == NewLeadCount(ScopedLeads(leads, user))
    ensures r.adminPending == NewLeadCount(leads)
    ensures r.pendingCalls <= r.adminPending
    ensures IsAdmin(user) ==> r.pendingCalls == r.adminPending
  {
    var visible := ScopedOrders(orders, user);
    var myLeads := ScopedLeads(leads, user);
    var total := |visible|;
    var confirmed := ConfirmedCount(visible);
    ScopedNewLeadsAtMost(leads, user.id);
    Stats(total, confirmed, CountStatus(visible, Pending), CountStatus(visible, Cancelled),
          ConfirmationRate(confirmed, total), Revenue(visible), NewLeadCount(myLeads), NewLeadCount(leads))
  }

  /** A moderator's new-lead count is over their own leads only, so it never
      exceeds the all-leads count. */
  lemma {:induction false} ScopedNewLeadsAtMost(leads: seq<Lead>, modId: string)
    ensures NewLeadCount(Filter(leads, (l: Lead) => l.moderatorId == modId)) <= NewLeadCount(leads)
  {
    if leads != [] {
      ScopedNewLeadsAtMost(leads[1..], modId);
      var own := (l: Lead) => l.moderatorId == modId;
      var hd := if own(leads[0]) then [leads[0]] else [];
      FilterAppend(hd, Filter(leads[1..], own), (l: Lead) => l.status == New);
    }
  }
}
