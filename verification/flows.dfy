/**
 * The storefront's two flows end to end: a customer's order travels from the form
 * through `POST /orders` into the table, and an admin who has logged in sees it in
 * the listing.
 */
module Flows {
  import opened Wrappers
  import Text
  import Catalogue
  import OrderForm
  import Auth
  import OrderStore

  /** The form's JSON payload as the server reads it into an order body: every field
      carried over, the status given, the creation time left to the server. */
  function ToNewOrder(p: OrderForm.Payload): (b: OrderStore.NewOrder)
    ensures b.customerName == p.customerName && b.phone == p.phone && b.address == p.address
    ensures b.quantity == p.quantity && b.color == p.color
    ensures b.paymentMethod == p.paymentMethod && b.totalAmount == p.totalAmount
    ensures b.status == Some(p.status) && b.createdAt.None?
  {
    OrderStore.NewOrder(p.customerName, p.phone, p.address, p.quantity, p.color,
                        p.paymentMethod, p.totalAmount, Some(p.status), None)
  }

  /** Whatever the customer did on the page, an order the form sends is stored with
      at least one flask, a catalogue colour, the price of its quantity, the status
      "pending", the trimmed phone that passed the pattern, and a fresh id. */
  lemma SubmittedOrderIsWellFormed(events: seq<OrderForm.Event>, clicks: seq<nat>,
                                   s: OrderStore.Store, clock: Auth.Clock)
    requires forall k :: 0 <= k < |clicks| ==> clicks[k] < |Catalogue.Variants|
    requires OrderForm.BeginSubmit(OrderForm.Run(OrderForm.Initial, events), Catalogue.SelectAfter(clicks)).Sent?
    ensures
      var f := OrderForm.Run(OrderForm.Initial, events);
      var p := OrderForm.BeginSubmit(f, Catalogue.SelectAfter(clicks)).payload;
      var o := OrderStore.CreateOrder(s, ToNewOrder(p), clock).order;
      && o.quantity >= 1
      && Catalogue.IsVariantId(o.color)
      && o.totalAmount == OrderForm.UnitPrice * o.quantity + OrderForm.DeliveryFee
      && o.status == "pending"
      && o.phone == Text.Trim(f.phone) && OrderForm.PhoneAccepted(o.phone)
      && (forall i :: 0 <= i < |s.orders| ==> s.orders[i].id != o.id)
  {
    OrderForm.ReachableFormIsConsistent(events);
    Catalogue.ReachableSelectionIsVariant(clicks);
  }

  /** A listing the admin makes with the default login token while it is still fresh
      (before thirty minutes past the server's local time at login) contains the order
      the form just sent, as a pending order at the form's price, whenever the order
      itself was placed. */
  lemma PlacedOrderReachesAdmin(f: OrderForm.Form, color: string, s: OrderStore.Store,
                                orderClock: Auth.Clock, loginClock: Auth.Clock, utcNow: int)
    requires OrderForm.BeginSubmit(f, color).Sent?
    requires utcNow < loginClock.Local() + 30 * 60
    ensures Auth.Login(Auth.Defaults, "admin@example.com", "password", loginClock).Success?
    ensures
      var token := Auth.Login(Auth.Defaults, "admin@example.com", "password", loginClock).value.accessToken;
      var c := OrderStore.CreateOrder(s, ToNewOrder(OrderForm.BeginSubmit(f, color).payload), orderClock);
      var listed := OrderStore.GetOrders(c.store, Some(token), utcNow);
      && listed.Success?
      && c.order in listed.value
      && c.order.status == "pending"
      && c.order.totalAmount == OrderForm.Total(f.quantity)
  {
    Auth.DefaultLoginTokenLifetime(loginClock, utcNow);
    var token := Auth.Login(Auth.Defaults, "admin@example.com", "password", loginClock).value.accessToken;
    var payload := OrderForm.BeginSubmit(f, color).payload;
    assert payload.status == "pending" && payload.totalAmount == OrderForm.Total(f.quantity);
    var body := ToNewOrder(payload);
    OrderStore.CreatedOrderIsListed(s, body, orderClock, Some(token), utcNow);
  }

  /** Without a token that verifies, the listing yields no orders at all, however many
      are stored: a missing header, a string that fails the signature check, or a login
      token whose expiry (thirty minutes past the server's local time at login) has
      passed. */
  lemma NoListingWithoutValidToken(s: OrderStore.Store, raw: string, clock: Auth.Clock, utcNow: int)
    requires utcNow >= clock.Local() + 30 * 60
    ensures OrderStore.GetOrders(s, None, utcNow) == Failure(Auth.NotAuthenticated)
    ensures OrderStore.GetOrders(s, Some(Auth.Unverifiable(raw)), utcNow) == Failure(Auth.InvalidToken)
    ensures
      var token := Auth.Login(Auth.Defaults, "admin@example.com", "password", clock).value.accessToken;
      OrderStore.GetOrders(s, Some(token), utcNow) == Failure(Auth.InvalidToken)
  {
    Auth.DefaultLoginTokenLifetime(clock, utcNow);
  }

  /** The listing trusts whatever the signing key signed: any signed token with a
      subject, whoever it names, lists every stored order until its expiry. This is
      safe only while the signing key is secret. */
  lemma SignedTokenListsEverything(s: OrderStore.Store, sub: string, exp: int, utcNow: int)
    ensures OrderStore.GetOrders(s, Some(Auth.Signed(Auth.Payload(Some(sub), exp))), utcNow) ==
      if utcNow < exp then Success(s.orders) else Failure(Auth.InvalidToken)
  {
  }
}
