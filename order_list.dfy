/** The order list of `components/OrderList.tsx`: which orders a user sees,
    the guarded courier sync, and the per-order address toggle. */
module OrderList {
  import opened Wrappers
  import opened Seqs
  import opened Strings
  import opened Domain
  import Store

  /** The search test: lower-cased id or customer name contains the
      lower-cased term, or the raw phone number contains it. */
  predicate MatchesSearch(o: Order, term: string) {
    var t := Lower(term);
    Contains(Lower(o.id), t) || Contains(Lower(o.customerName), t) || Contains(o.customerPhone, t)
  }

  /** The search step: skipped when the search box is empty. */
  function SearchFiltered(list: seq<Order>, searchTerm: string): (r: seq<Order>)
    ensures searchTerm == "" ==> r == list
    ensures forall i :: 0 <= i < |r| ==> r[i] in list && (searchTerm == "" || MatchesSearch(r[i], searchTerm))
    ensures forall i :: 0 <= i < |list| && MatchesSearch(list[i], searchTerm) ==> list[i] in r
  {
    if searchTerm == "" then list else Filter(list, (o: Order) => MatchesSearch(o, searchTerm))
  }

  /** `filteredOrders`: scope by role, filter by search, reverse (newest first). */
  function VisibleOrders(orders: seq<Order>, user: User, searchTerm: string): (r: seq<Order>)
    ensures |r| <= |orders|
  {
    Reverse(SearchFiltered(ScopedOrders(orders, user), searchTerm))
  }

  /** Whether one order passes both the role scope and the search. */
  predicate Shown(o: Order, user: User, searchTerm: string) {
    (IsAdmin(user) || o.moderatorId == user.id) && (searchTerm == "" || MatchesSearch(o, searchTerm))
  }

  /** Role scope followed by search is one filter by `Shown`. */
  lemma ScopeThenSearch(orders: seq<Order>, user: User, searchTerm: string)
    ensures SearchFiltered(ScopedOrders(orders, user), searchTerm) == Filter(orders, (o: Order) => Shown(o, user, searchTerm))
  {
    var scope := (o: Order) => o.moderatorId == user.id;
    var search := (o: Order) => MatchesSearch(o, searchTerm);
    var shown := (o: Order) => Shown(o, user, searchTerm);
    if IsAdmin(user) && searchTerm == "" {
      FilterKeepsAll(orders, shown);
    } else if IsAdmin(user) {
      FilterCongruent(orders, search, shown);
    } else if searchTerm == "" {
      FilterCongruent(orders, scope, shown);
    } else {
      FilterFilter(orders, scope, search, shown);
    }
  }

  /** The visible list is exactly the reverse of the input's subsequence of
      orders that pass both tests; the input list itself is a value and is
      never changed. */
  lemma VisibleOrdersIsReversedFilter(orders: seq<Order>, user: User, searchTerm: string)
    ensures VisibleOrders(orders, user, searchTerm) == Reverse(Filter(orders, (o: Order) => Shown(o, user, searchTerm)))
  {
    ScopeThenSearch(orders, user, searchTerm);
  }

  /** An order is visible exactly when it is in the list, the user is an
      admin or owns it, and the search term is empty or matches it. */
  lemma VisibleOrdersMembers(orders: seq<Order>, user: User, searchTerm: string, i: nat)
    requires i < |orders|
    ensures orders[i] in VisibleOrders(orders, user, searchTerm) <==> Shown(orders[i], user, searchTerm)
  {
    var shown := (o: Order) => Shown(o, user, searchTerm);
    VisibleOrdersIsReversedFilter(orders, user, searchTerm);
    ReverseMembers(Filter(orders, shown), orders[i]);
  }

  /** A moderator never sees another moderator's order. */
  lemma ModeratorSeesOwnOrders(orders: seq<Order>, user: User, searchTerm: string, k: nat)
    requires !IsAdmin(user)
    requires k < |VisibleOrders(orders, user, searchTerm)|
    ensures VisibleOrders(orders, user, searchTerm)[k].moderatorId == user.id
  {
    var shown := (o: Order) => Shown(o, user, searchTerm);
    VisibleOrdersIsReversedFilter(orders, user, searchTerm);
    var f := Filter(orders, shown);
    assert VisibleOrders(orders, user, searchTerm)[k] == f[|f| - 1 - k];
  }

  // ------------------------------------------------------------- courier sync

  /** What the courier call can come back with (the call itself is outside
      the model): a success with the consignment, a response whose `success`
      is false, or a thrown error. */
  datatype CourierOutcome =
    | Accepted(consignmentId: string, courierStatus: string)
    | NotAccepted
    | Threw(message: string)

  /** One call of `onUpdateStatus`. */
  datatype StatusUpdate = StatusUpdate(orderId: string, status: OrderStatus, courier: Option<CourierData>)

  /** `order.steadfastId` is truthy: present and not the empty string. */
  predicate HasSteadfastId(o: Order) {
    o.steadfastId.Some? && o.steadfastId.value != ""
  }

  /** The status updates a finished courier call causes. */
  function SyncUpdates(order: Order, outcome: CourierOutcome): (r: seq<StatusUpdate>)
    ensures |r| <= 1
    ensures |r| == 1 <==> outcome.Accepted?
    ensures outcome.Accepted? ==>
      r[0] == StatusUpdate(order.id, Confirmed, Some(CourierData(outcome.consignmentId, outcome.courierStatus)))
  {
    match outcome
    case Accepted(cid, st) => [StatusUpdate(order.id, Confirmed, Some(CourierData(cid, st)))]
    case NotAccepted => []
    case Threw(_) => []
  }

  /** A sync the courier accepted, once the store has applied its update,
      leaves the order CONFIRMED with the consignment attached; if the
      consignment id is not empty the order then counts as synced, so the
      button is gone and a further sync makes no courier call. */
  lemma SyncIsOneWay(orders: seq<Order>, i: nat, outcome: CourierOutcome)
    requires i < |orders| && outcome.Accepted?
    ensures var u := SyncUpdates(orders[i], outcome)[0];
      var after := Store.UpdateStatus(orders, u.orderId, u.status, u.courier)[i];
      && after.status == Confirmed
      && after.steadfastId == Some(outcome.consignmentId)
      && after.courierStatus == Some(outcome.courierStatus)
      && (outcome.consignmentId != "" ==> HasSteadfastId(after))
  {
    var u := SyncUpdates(orders[i], outcome)[0];
    Store.UpdateStatusSpec(orders, u.orderId, u.status, u.courier, i);
  }

  /** The sync button is offered to admins on orders not yet synced. */
  predicate SyncButtonShown(user: User, o: Order) {
    IsAdmin(user) && !HasSteadfastId(o)
  }

  /** Once the store has applied a sync the courier accepted with a
      non-empty consignment id, the order no longer offers the button. */
  lemma SyncHidesButton(orders: seq<Order>, i: nat, outcome: CourierOutcome, user: User)
    requires i < |orders| && outcome.Accepted? && outcome.consignmentId != ""
    ensures var u := SyncUpdates(orders[i], outcome)[0];
      !SyncButtonShown(user, Store.UpdateStatus(orders, u.orderId, u.status, u.courier)[i])
  {
    SyncIsOneWay(orders, i, outcome);
  }

  /** The button is disabled while that order's sync is outstanding. */
  predicate SyncButtonDisabled(syncingId: Option<string>, o: Order) {
    syncingId == Some(o.id)
  }

  /** Whether the address of an order is shown; an order never toggled is not. */
  function AddressShown(visible: map<string, bool>, orderId: string): bool {
    if orderId in visible then visible[orderId] else false
  }

  /** `toggleAddress` on the flag record. */
  function ToggleAddress(visible: map<string, bool>, orderId: string): (r: map<string, bool>)
    ensures AddressShown(r, orderId) == !AddressShown(visible, orderId)
    ensures forall id :: id != orderId ==> AddressShown(r, id) == AddressShown(visible, id)
    ensures r.Keys == visible.Keys + {orderId}
  {
    visible[orderId := !AddressShown(visible, orderId)]
  }

  /** Toggling twice restores what is shown. */
  lemma ToggleTwice(visible: map<string, bool>, orderId: string, id: string)
    ensures AddressShown(ToggleAddress(ToggleAddress(visible, orderId), orderId), id) == AddressShown(visible, id)
  {
  }

  /** The list screen's own state: the search box, the order being synced
      and the per-order address flags. The date-range boxes are not modelled. */
  class OrderListView {
    var searchTerm: string
    var syncingId: Option<string>
    var visibleAddresses: map<string, bool>

    constructor ()
      ensures searchTerm == "" && syncingId == None && visibleAddresses == map[]
    {
      searchTerm, syncingId, visibleAddresses := "", None, map[];
    }

    /** The first half of `handleCourierSync`, up to the `await`: an order
        already synced is left alone (no courier call); otherwise the order
        is marked as syncing and the courier is to be called. */
    method StartSync(order: Order) returns (callCourier: bool)
      modifies this
      ensures callCourier == !HasSteadfastId(order)
      ensures callCourier ==> syncingId == Some(order.id) && SyncButtonDisabled(syncingId, order)
      ensures !callCourier ==> syncingId == old(syncingId)
      ensures searchTerm == old(searchTerm) && visibleAddresses == old(visibleAddresses)
    {
      if HasSteadfastId(order) {
        return false;
      }
      syncingId := Some(order.id);
      callCourier := true;
    }

    /** The second half, after the courier answered: at most one status
        update, and the syncing mark is cleared in every outcome. */
    method FinishSync(order: Order, outcome: CourierOutcome) returns (updates: seq<StatusUpdate>)
      modifies this
      ensures updates == SyncUpdates(order, outcome)
      ensures syncingId == None
      ensures searchTerm == old(searchTerm) && visibleAddresses == old(visibleAddresses)
    {
      updates := [];
      if outcome.Accepted? {
        updates := [StatusUpdate(order.id, Confirmed, Some(CourierData(outcome.consignmentId, outcome.courierStatus)))];
      }
      syncingId := None;
    }

    method ToggleAddressOf(orderId: string)
      modifies this
      ensures visibleAddresses == ToggleAddress(old(visibleAddresses), orderId)
      ensures searchTerm == old(searchTerm) && syncingId == old(syncingId)
    {
      visibleAddresses := ToggleAddress(visibleAddresses, orderId);
    }

    method SetSearchTerm(term: string)
      modifies this
      ensures searchTerm == term
      ensures syncingId == old(syncingId) && visibleAddresses == old(visibleAddresses)
    {
      searchTerm := term;
    }
  }

  /** The one `syncingId` slot is shared by every order: starting a sync for
      a second order while the first is outstanding re-enables the first
      order's button, so the slot does not keep two syncs apart. */
  method SharedSyncSlot(a: Order, b: Order) returns (v: OrderListView)
    requires !HasSteadfastId(a) && !HasSteadfastId(b) && a.id != b.id
    ensures SyncButtonDisabled(v.syncingId, b)
    ensures !SyncButtonDisabled(v.syncingId, a)
  {
    v := new OrderListView();
    var callA := v.StartSync(a);
    assert SyncButtonDisabled(v.syncingId, a);
    var callB := v.StartSync(b);
  }
}
