/**
 * The backend's order table (backend/main.py): the `Order` record, `POST /orders`,
 * which stores an order and fills in its defaults, and `GET /orders`, which lists
 * the table for an authenticated admin. The database is an in-memory sequence of
 * rows in insertion order; ids follow SQLite's rule for an integer primary key that
 * is left unset: one more than the largest id in the table, or 1 in an empty table.
 */
module OrderStore {
  import opened Wrappers
  import Auth

  /** A stored order. Amounts are whole taka; `createdAt` is the server's local
      wall-clock time in seconds. */
  datatype Order = Order(
    id: int,
    customerName: string,
    phone: string,
    address: string,
    quantity: int,
    color: string,
    paymentMethod: string,
    totalAmount: int,
    status: string,
    createdAt: int)

  /** The body of `POST /orders`. `status` and `createdAt` may be left out; the
      server fills them in. */
  datatype NewOrder = NewOrder(
    customerName: string,
    phone: string,
    address: string,
    quantity: int,
    color: string,
    paymentMethod: string,
    totalAmount: int,
    status: Option<string>,
    createdAt: Option<int>)

  /** The status an order is stored with when the body names none. */
  const DefaultStatus: string := "pending"

  datatype Store = Store(orders: seq<Order>)

  /** Every id in the table is smaller than every id stored after it. */
  predicate IdsIncreasing(orders: seq<Order>) {
    forall i, j :: 0 <= i < j < |orders| ==> orders[i].id < orders[j].id
  }

  /** The largest id in a non-empty table. */
  function LargestId(orders: seq<Order>): (m: int)
    requires orders != []
    ensures forall i :: 0 <= i < |orders| ==> orders[i].id <= m
    ensures exists i :: 0 <= i < |orders| && orders[i].id == m
  {
    if |orders| == 1 then orders[0].id
    else
      var rest := LargestId(orders[1..]);
      assert forall i :: 1 <= i < |orders| ==> orders[i] == orders[1..][i - 1];
      if orders[0].id < rest then rest else orders[0].id
  }

  /** The id the database gives the next row. */
  function NextId(s: Store): (id: int)
    ensures forall i :: 0 <= i < |s.orders| ==> s.orders[i].id < id
    ensures s.orders == [] ==> id == 1
  {
    if s.orders == [] then 1 else LargestId(s.orders) + 1
  }

  /** The result of `create_order`: the new table and the stored row it returns. */
  datatype Created = Created(store: Store, order: Order)

  /** `POST /orders`: stores the order under a fresh id, with status "pending" and the
      current local time unless the body gives its own, and returns the stored row.
      Nothing is validated and no stored row changes. */
  function CreateOrder(s: Store, body: NewOrder, clock: Auth.Clock): (r: Created)
    ensures r.store.orders == s.orders + [r.order]
    ensures forall i :: 0 <= i < |s.orders| ==> s.orders[i].id != r.order.id
    ensures body.status.None? ==> r.order.status == "pending"
    ensures body.status.Some? ==> r.order.status == body.status.value
    ensures body.createdAt.None? ==> r.order.createdAt == clock.utc + clock.utcOffset
    ensures body.createdAt.Some? ==> r.order.createdAt == body.createdAt.value
    ensures && r.order.customerName == body.customerName && r.order.phone == body.phone
            && r.order.address == body.address && r.order.quantity == body.quantity
            && r.order.color == body.color && r.order.paymentMethod == body.paymentMethod
            && r.order.totalAmount == body.totalAmount
  {
    var order := Order(NextId(s), body.customerName, body.phone, body.address, body.quantity,
                       body.color, body.paymentMethod, body.totalAmount,
                       body.status.GetOr(DefaultStatus), body.createdAt.GetOr(clock.Local()));
    Created(Store(s.orders + [order]), order)
  }

  /** Creating an order keeps the ids of the table increasing, hence distinct. */
  lemma CreateKeepsIdsIncreasing(s: Store, body: NewOrder, clock: Auth.Clock)
    requires IdsIncreasing(s.orders)
    ensures IdsIncreasing(CreateOrder(s, body, clock).store.orders)
  {
  }

  /** The table after storing a batch of bodies one after another. */
  function CreateAll(s: Store, bodies: seq<NewOrder>, clock: Auth.Clock): Store
    decreases |bodies|
  {
    if bodies == [] then s else CreateAll(CreateOrder(s, bodies[0], clock).store, bodies[1..], clock)
  }

  /** Storing N orders into an empty table gives N rows with N distinct ids. */
  lemma {:induction false} CreateAllDistinctIds(s: Store, bodies: seq<NewOrder>, clock: Auth.Clock)
    requires IdsIncreasing(s.orders)
    ensures IdsIncreasing(CreateAll(s, bodies, clock).orders)
    ensures |CreateAll(s, bodies, clock).orders| == |s.orders| + |bodies|
    decreases |bodies|
  {
    if bodies != [] {
      CreateKeepsIdsIncreasing(s, bodies[0], clock);
      CreateAllDistinctIds(CreateOrder(s, bodies[0], clock).store, bodies[1..], clock);
    }
  }

  /** `GET /orders`: every stored order, in table order, and only for a bearer whose
      token verifies; otherwise the refusal of the token check and no orders. */
  function GetOrders(s: Store, bearer: Option<Auth.Token>, utcNow: int): (r: Result<seq<Order>, Auth.AuthError>)
    ensures r.Success? <==> Auth.VerifyToken(bearer, utcNow).Success?
    ensures r.Success? ==> r.value == s.orders
    ensures r.Failure? ==> r.error == Auth.VerifyToken(bearer, utcNow).error
  {
    match Auth.VerifyToken(bearer, utcNow)
    case Failure(e) => Failure(e)
    case Success(_) => Success(s.orders)
  }

  /** An order, once created, is in every later authorised listing, after the orders
      that were already there, which are listed unchanged. */
  lemma CreatedOrderIsListed(s: Store, body: NewOrder, clock: Auth.Clock, bearer: Option<Auth.Token>, utcNow: int)
    requires Auth.VerifyToken(bearer, utcNow).Success?
    ensures var c := CreateOrder(s, body, clock);
      && GetOrders(c.store, bearer, utcNow).Success?
      && c.order in GetOrders(c.store, bearer, utcNow).value
      && GetOrders(c.store, bearer, utcNow).value[..|s.orders|] == s.orders
  {
    var c := CreateOrder(s, body, clock);
    assert c.store.orders[|s.orders|] == c.order;
  }
}
