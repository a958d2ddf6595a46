/**
 * The admin dashboard (frontend/src/pages/AdminDashboard.tsx): the summary figures
 * computed over the loaded orders, how each order's status, colour and payment
 * method are shown, and how loading, refreshing, logging out and choosing a status
 * change the page.
 */
module AdminDashboard {
  import opened Wrappers
  import opened Browser
  import Catalogue
  import OrderStore

  type Order = OrderStore.Order

  // ---------------------------------------------------------------- statistics

  /** `orders.filter(o => o.status === status)`: every order with exactly that
      status, as often as it occurs, and no other order. */
  function WithStatus(orders: seq<Order>, status: string): (r: seq<Order>)
    ensures |r| <= |orders|
    ensures forall i :: 0 <= i < |r| ==> r[i].status == status && r[i] in orders
    ensures forall i :: 0 <= i < |orders| && orders[i].status == status ==> orders[i] in r
  {
    if orders == [] then []
    else
      var rest := WithStatus(orders[1..], status);
      assert forall i :: 1 <= i < |orders| ==> orders[i] == orders[1..][i - 1];
      if orders[0].status == status then [orders[0]] + rest else rest
  }

  /** The filter keeps every order with exactly that status as often as it occurs, and
      no other order: it determines the filtered orders up to their order. */
  lemma {:induction false} WithStatusCounts(orders: seq<Order>, status: string)
    ensures forall o ::
              multiset(WithStatus(orders, status))[o] == if o.status == status then multiset(orders)[o] else 0
  {
    if orders != [] {
      assert orders == [orders[0]] + orders[1..];
      WithStatusCounts(orders[1..], status);
    }
  }

  /** The sum of the orders' amounts. */
  function SumAmounts(orders: seq<Order>): int {
    if orders == [] then 0 else orders[0].totalAmount + SumAmounts(orders[1..])
  }

  /** The five figures above the table. */
  datatype Stats = Stats(total: nat, pending: nat, confirmed: nat, delivered: nat, totalRevenue: int)

  /** `stats`: the number of orders, the number with each of three statuses, and the
      revenue, which counts delivered orders only. */
  function ComputeStats(orders: seq<Order>): (s: Stats)
    ensures s.total == |orders|
    ensures s.pending <= s.total && s.confirmed <= s.total && s.delivered <= s.total
  {
    var delivered := WithStatus(orders, "delivered");
    Stats(|orders|, |WithStatus(orders, "pending")|, |WithStatus(orders, "confirmed")|,
          |delivered|, SumAmounts(delivered))
  }

  /** The revenue, stated order by order: each delivered order adds its amount and
      every other order adds nothing. */
  function DeliveredRevenue(orders: seq<Order>): int {
    if orders == [] then 0
    else (if orders[0].status == "delivered" then orders[0].totalAmount else 0) + DeliveredRevenue(orders[1..])
  }

  /** The revenue figure is exactly the order-by-order revenue: pending, confirmed,
      shipped, cancelled or unknown orders never contribute. */
  lemma {:induction false} RevenueCountsDeliveredOnly(orders: seq<Order>)
    ensures ComputeStats(orders).totalRevenue == DeliveredRevenue(orders)
  {
    if orders != [] {
      RevenueCountsDeliveredOnly(orders[1..]);
    }
  }

  /** No order is counted under two statuses, so the three status counts together
      never exceed the number of orders. */
  lemma {:induction false} StatusCountsWithinTotal(orders: seq<Order>)
    ensures var s := ComputeStats(orders);
      s.pending + s.confirmed + s.delivered <= s.total
  {
    if orders != [] {
      StatusCountsWithinTotal(orders[1..]);
    }
  }

  /** Appending an order that is not delivered leaves the revenue unchanged. */
  lemma {:induction false} UndeliveredAddsNoRevenue(orders: seq<Order>, o: Order)
    requires o.status != "delivered"
    ensures ComputeStats(orders + [o]).totalRevenue == ComputeStats(orders).totalRevenue
  {
    RevenueCountsDeliveredOnly(orders + [o]);
    RevenueCountsDeliveredOnly(orders);
    DeliveredRevenueAppend(orders, o);
  }

  /** Each order that arrives adds one to the total and one to the count of its own
      status, if that is one of the three counted, and nothing to the others. */
  lemma CountsAppend(orders: seq<Order>, o: Order)
    ensures var before, after := ComputeStats(orders), ComputeStats(orders + [o]);
      && after.total == before.total + 1
      && after.pending == before.pending + (if o.status == "pending" then 1 else 0)
      && after.confirmed == before.confirmed + (if o.status == "confirmed" then 1 else 0)
      && after.delivered == before.delivered + (if o.status == "delivered" then 1 else 0)
  {
    WithStatusAppend(orders, o, "pending");
    WithStatusAppend(orders, o, "confirmed");
    WithStatusAppend(orders, o, "delivered");
  }

  /** Filtering an appended order appends it to the filtered orders, or not. */
  lemma {:induction false} WithStatusAppend(orders: seq<Order>, o: Order, status: string)
    ensures WithStatus(orders + [o], status)
      == WithStatus(orders, status) + (if o.status == status then [o] else [])
  {
    if orders == [] {
      assert orders + [o] == [o];
      assert [o][1..] == [];
    } else {
      assert (orders + [o])[1..] == orders[1..] + [o];
      WithStatusAppend(orders[1..], o, status);
    }
  }

  lemma {:induction false} DeliveredRevenueAppend(orders: seq<Order>, o: Order)
    ensures DeliveredRevenue(orders + [o])
      == DeliveredRevenue(orders) + (if o.status == "delivered" then o.totalAmount else 0)
  {
    if orders == [] {
      assert orders + [o] == [o];
      assert [o][1..] == [];
    } else {
      assert (orders + [o])[1..] == orders[1..] + [o];
      DeliveredRevenueAppend(orders[1..], o);
    }
  }

  /** Two pending orders, deliveries of 500 and 700 and a cancellation. */
  predicate ExampleOrders(orders: seq<Order>) {
    && |orders| == 5
    && orders[0].status == "pending" && orders[1].status == "pending"
    && orders[2].status == "delivered" && orders[2].totalAmount == 500
    && orders[3].status == "delivered" && orders[3].totalAmount == 700
    && orders[4].status == "cancelled"
  }

  lemma ExampleDelivered(orders: seq<Order>)
    requires ExampleOrders(orders)
    ensures WithStatus(orders, "delivered") == [orders[2], orders[3]]
  {
    assert orders[3..][1..] == orders[4..] && orders[4..][1..] == [];
    assert orders[2..][1..] == orders[3..] && orders[1..][1..] == orders[2..];
    assert WithStatus(orders[4..], "delivered") == [];
    assert WithStatus(orders[3..], "delivered") == [orders[3]];
    assert WithStatus(orders[2..], "delivered") == [orders[2], orders[3]];
    assert WithStatus(orders[1..], "delivered") == [orders[2], orders[3]];
  }

  lemma ExamplePending(orders: seq<Order>)
    requires ExampleOrders(orders)
    ensures WithStatus(orders, "pending") == [orders[0], orders[1]]
  {
    assert orders[3..][1..] == orders[4..] && orders[4..][1..] == [];
    assert orders[2..][1..] == orders[3..] && orders[1..][1..] == orders[2..];
    assert WithStatus(orders[4..], "pending") == [];
    assert WithStatus(orders[3..], "pending") == [];
    assert WithStatus(orders[2..], "pending") == [];
  }

  lemma ExampleConfirmed(orders: seq<Order>)
    requires ExampleOrders(orders)
    ensures WithStatus(orders, "confirmed") == []
  {
    assert orders[3..][1..] == orders[4..] && orders[4..][1..] == [];
    assert orders[2..][1..] == orders[3..] && orders[1..][1..] == orders[2..];
    assert WithStatus(orders[4..], "confirmed") == [];
    assert WithStatus(orders[3..], "confirmed") == [];
    assert WithStatus(orders[2..], "confirmed") == [];
  }

  /** For the example orders the page shows five orders, two pending, none confirmed,
      two delivered, and a revenue of 1200. */
  lemma StatsExample(orders: seq<Order>)
    requires ExampleOrders(orders)
    ensures ComputeStats(orders) == Stats(5, 2, 0, 2, 1200)
  {
    ExampleDelivered(orders);
    ExamplePending(orders);
    ExampleConfirmed(orders);
    var delivered := [orders[2], orders[3]];
    assert delivered[1..] == [orders[3]] && [orders[3]][1..] == [];
    assert SumAmounts([orders[3]]) == 700;
    assert SumAmounts(delivered) == 1200;
  }

  // ---------------------------------------------------------------- display

  /** A status badge: its title and visual variant. The icon is presentation. */
  datatype Badge = Badge(title: string, variant: string)

  /** `statusConfig`. */
  const StatusConfig: map<string, Badge> := map[
    "pending" := Badge("অপেক্ষমাণ", "secondary"),
    "confirmed" := Badge("নিশ্চিত", "default"),
    "shipped" := Badge("শিপড", "outline"),
    "delivered" := Badge("ডেলিভারড", "default"),
    "cancelled" := Badge("বাতিল", "destructive")
  ]

  /** The badge an order's status is shown with: its own for the five known statuses,
      the "pending" badge for anything else. */
  function StatusBadge(status: string): (b: Badge)
    ensures status in StatusConfig ==> b == StatusConfig[status]
    ensures status !in StatusConfig ==> b == StatusConfig["pending"]
    ensures b in StatusConfig.Values
  {
    if status in StatusConfig then StatusConfig[status] else StatusConfig["pending"]
  }

  /** An unknown status looks pending in the table but is not counted as pending. */
  lemma UnknownStatusLooksPendingButIsNotCounted(o: Order)
    requires o.status !in StatusConfig
    ensures StatusBadge(o.status) == StatusBadge("pending")
    ensures ComputeStats([o]).pending == 0
  {
  }

  /** The label of the payment column: "COD" for cash on delivery, the mobile-wallet
      label for every other value. */
  function PaymentLabel(paymentMethod: string): (text: string)
    ensures text == "COD" <==> paymentMethod == "cod"
    ensures text == "বিকাশ/নগদ" <==> paymentMethod != "cod"
  {
    if paymentMethod == "cod" then "COD" else "বিকাশ/নগদ"
  }

  /** `colorNames` of the dashboard. */
  const ColorNames: map<string, string> := map[
    "blue" := "নীল",
    "black" := "কালো",
    "white" := "সাদা",
    "red" := "লাল"
  ]

  /** The colour column as written: the dashboard's own name for the colour, or the
      raw colour id when it has none. */
  function ColorLabelAsWritten(color: string): (text: string)
    ensures color in ColorNames ==> text == ColorNames[color]
    ensures color !in ColorNames ==> text == color
  {
    if color in ColorNames then ColorNames[color] else color
  }

  /** The dashboard's colour names do not cover the catalogue: two of the four colours
      a customer can order are shown as raw ids, unlike the names the storefront shows
      for them. */
  lemma ColorLabelMissesCatalogue()
    ensures ColorLabelAsWritten("gray") == "gray" && Catalogue.CurrentVariant("gray").name == "ধূসর"
    ensures ColorLabelAsWritten("green") == "green" && Catalogue.CurrentVariant("green").name == "সবুজ"
  {
    assert "gray" !in ColorNames && "green" !in ColorNames;
    var gray, green := Catalogue.ClickSwatch(2), Catalogue.ClickSwatch(3);
    assert gray == "gray" && green == "green";
  }

  /** The colour column named from the catalogue: every orderable colour is shown by
      the same name the storefront uses, and any other id is shown raw. */
  function ColorLabel(color: string): (text: string)
    ensures Catalogue.IsVariantId(color) ==> text == Catalogue.CurrentVariant(color).name
    ensures !Catalogue.IsVariantId(color) ==> text == color
    ensures color in {"blue", "black"} ==> text == ColorLabelAsWritten(color)
  {
    Catalogue.CatalogueIds();
    if Catalogue.IsVariantId(color) then Catalogue.CurrentVariant(color).name else color
  }

  // ---------------------------------------------------------------- page state

  /** The page's state with the browser state it acts on. */
  datatype Dashboard = Dashboard(
    storage: Storage,
    route: string,
    orders: seq<Order>,
    isLoading: bool,
    isRefreshing: bool)

  /** The state the page mounts with. */
  function Mount(storage: Storage, route: string): Dashboard {
    Dashboard(storage, route, [], true, false)
  }

  /** How `GET /orders` ended: a response with its status and the orders of its body,
      or a request or body that could not be read. */
  datatype FetchReply = Responded(status: int, orders: seq<Order>) | Fault {
    predicate Ok() {
      Responded? && IsOk(status)
    }

    predicate Unauthorized() {
      Responded? && status == 401
    }
  }

  /** The outcome of `fetchOrders`: the new state, the bearer token of the request if
      one was sent, and the toast shown. */
  datatype Fetched = Fetched(state: Dashboard, request: Option<string>, toast: Toast)

  /** `fetchOrders`. Without a stored token it only goes to the login route, sends
      nothing and leaves the flags alone. Otherwise it sends the token; an ok reply
      replaces the orders, a 401 discards the token and goes to the login route, and
      any other failure reports an error; in every case both flags end false. */
  function FetchOrders(d: Dashboard, reply: FetchReply): (f: Fetched)
    ensures f.request.None? <==> StoredToken(d.storage).None?
    ensures f.request.None? ==> f.state == d.(route := LoginRoute) && f.toast == NoToast
    ensures f.request.Some? ==> f.request == StoredToken(d.storage)
    ensures f.request.Some? ==> !f.state.isLoading && !f.state.isRefreshing
    ensures f.state.orders == (if f.request.Some? && reply.Ok() then reply.orders else d.orders)
    ensures f.state.storage == (if f.request.Some? && reply.Unauthorized()
                                then d.storage - {TokenKey} else d.storage)
    ensures f.state.route == (if f.request.None? || reply.Unauthorized() then LoginRoute else d.route)
    ensures f.toast == (if f.request.Some? && !reply.Ok() && !reply.Unauthorized() then ErrorToast else NoToast)
  {
    match StoredToken(d.storage)
    case None => Fetched(d.(route := LoginRoute), None, NoToast)
    case Some(token) =>
      var settled := d.(isLoading := false, isRefreshing := false);
      if reply.Ok() then
        Fetched(settled.(orders := reply.orders), Some(token), NoToast)
      else if reply.Unauthorized() then
        Fetched(settled.(storage := d.storage - {TokenKey}, route := LoginRoute), Some(token), NoToast)
      else
        Fetched(settled, Some(token), ErrorToast)
  }

  /** `checkAuth`, run when the page mounts: go to the login route without a token,
      otherwise fetch. */
  function CheckAuth(d: Dashboard, reply: FetchReply): Fetched {
    if StoredToken(d.storage).None? then Fetched(d.(route := LoginRoute), None, NoToast)
    else FetchOrders(d, reply)
  }

  /** Opening the dashboard: the page mounts with no orders, loading and not
      refreshing, and runs `checkAuth`. Without a token it goes to the login route and
      the loading mark stays set, since no fetch runs to clear it; with a token every
      reply ends loading, and the listed orders are the reply's on an ok reply and
      none otherwise. */
  lemma MountThenCheckAuth(storage: Storage, route: string, reply: FetchReply)
    ensures var f := CheckAuth(Mount(storage, route), reply);
      StoredToken(storage).None? ==>
        && f.request.None?
        && f.state.route == LoginRoute
        && f.state.isLoading
        && f.state.orders == []
    ensures var f := CheckAuth(Mount(storage, route), reply);
      StoredToken(storage).Some? ==>
        && f.request == StoredToken(storage)
        && !f.state.isLoading && !f.state.isRefreshing
        && f.state.orders == (if reply.Ok() then reply.orders else [])
        && f.state.route == (if reply.Unauthorized() then LoginRoute else route)
  {
    CheckAuthIsFetch(Mount(storage, route), reply);
  }

  /** The token test of `checkAuth` repeats the one inside `fetchOrders`: mounting the
      page behaves exactly like a fetch. */
  lemma CheckAuthIsFetch(d: Dashboard, reply: FetchReply)
    ensures CheckAuth(d, reply) == FetchOrders(d, reply)
  {
  }

  /** `handleRefresh`: mark the page as refreshing, then fetch. Without a token the
      refreshing mark stays set, since the early return skips the reset. */
  function Refresh(d: Dashboard, reply: FetchReply): (f: Fetched)
    ensures StoredToken(d.storage).Some? ==> !f.state.isRefreshing && !f.state.isLoading
    ensures StoredToken(d.storage).None? ==> f.state.isRefreshing && f.state.route == LoginRoute
    ensures StoredToken(d.storage).Some? ==> f == FetchOrders(d, reply)
    ensures StoredToken(d.storage).None? ==>
      f.state == d.(isRefreshing := true, route := LoginRoute) && f.request.None? && f.toast == NoToast
  {
    FetchOrders(d.(isRefreshing := true), reply)
  }

  /** A failed fetch never changes the loaded orders; only an ok reply does. */
  lemma FailedFetchKeepsOrders(d: Dashboard, reply: FetchReply)
    requires !reply.Ok()
    ensures FetchOrders(d, reply).state.orders == d.orders
    ensures Refresh(d, reply).state.orders == d.orders
  {
  }

  /** A 401 reply logs the admin out: the next fetch sends no request. */
  lemma UnauthorizedLogsOut(d: Dashboard, reply: FetchReply, next: FetchReply)
    requires StoredToken(d.storage).Some?
    requires reply.Unauthorized()
    ensures var f := FetchOrders(d, reply);
      f.state.route == LoginRoute && TokenKey !in f.state.storage
      && FetchOrders(f.state, next).request.None?
  {
  }

  /** `handleLogout`: the token is removed and the login route opened; the next fetch
      sends no request. */
  function Logout(d: Dashboard): (e: Dashboard)
    ensures TokenKey !in e.storage && e.route == LoginRoute
    ensures StoredToken(e.storage).None?
    ensures forall k :: k in d.storage && k != TokenKey ==> k in e.storage && e.storage[k] == d.storage[k]
    ensures e.storage.Keys == d.storage.Keys - {TokenKey}
    ensures e.orders == d.orders && e.isLoading == d.isLoading && e.isRefreshing == d.isRefreshing
  {
    d.(storage := d.storage - {TokenKey}, route := LoginRoute)
  }

  /** `handleStatusChange`: no request is made and the orders are left as they are;
      with a token the admin is shown a demo success message, without one nothing. */
  function ChangeStatus(d: Dashboard, orderId: int, newStatus: string): (r: (Dashboard, Toast))
    ensures r.0 == d
    ensures r.1 == SuccessToast <==> StoredToken(d.storage).Some?
    ensures r.1 != ErrorToast
  {
    if StoredToken(d.storage).None? then (d, NoToast) else (d, SuccessToast)
  }
}
