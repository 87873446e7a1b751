/** The admin's orders page (src/pages/OrdersPage.tsx): a guard that admits
    role "admin" only, and two handlers that compute the next order list
    from the previous one once their request has settled. */
module OrdersPage {
  import opened Wrappers
  import opened AuthHelper
  import opened Lists
  import opened Browser
  import opened Models
  import AuthMiddleware
  import UserController

  /** One ordered product, populated with its name and price. */
  datatype OrderItem = OrderItem(productId: string, name: string, price: int, quantity: int)

  /** An order as `GET /orders` returns it; `status` starts as "Pending". */
  datatype Order = Order(id: string, email: string, items: seq<OrderItem>, totalPrice: int, status: string)

  /** The page's state: the list shown and the error message. */
  datatype OrdersView = OrdersView(orders: seq<Order>, errorMessage: string)

  function OrderId(o: Order): string { o.id }

  /** The guard effect: `/login` without a token, `/login` with an error
      when it does not decode, `/` with an error for a role other than "admin". */
  function Guard(userToken: Option<Jwt>): (g: GuardOutcome)
    ensures g == Stay <==> userToken.Some? && Decode(userToken.value).Some? && Decode(userToken.value).value.claims.role == Some("admin")
    ensures userToken.None? ==> g == Redirect("/login", None)
    ensures userToken.Some? && Decode(userToken.value).None? ==> g == Redirect("/login", Some(DecodingFailed))
    ensures userToken.Some? && Decode(userToken.value).Some? && Decode(userToken.value).value.claims.role != Some("admin") ==>
      g == Redirect("/", Some(NotAuthorized))
  {
    RoleGuard(userToken, "admin")
  }

  /** `handleChangeStatus`. `response` is the status in the server's reply
      (None: the request failed, and the error is shown instead). */
  function ChangeStatus(v: OrdersView, orderId: string, response: Option<string>): (r: OrdersView)
    ensures response.None? ==> r == v.(errorMessage := "Error updating order status.")
    ensures response.Some? ==> r.errorMessage == v.errorMessage && |r.orders| == |v.orders|
    ensures response.Some? ==> forall j :: 0 <= j < |v.orders| ==>
      r.orders[j] == if v.orders[j].id == orderId then v.orders[j].(status := response.value) else v.orders[j]
  {
    match response
    case None => v.(errorMessage := "Error updating order status.")
    case Some(status) => v.(orders := UpdateKey(v.orders, OrderId, orderId, (o: Order) => o.(status := status)))
  }

  /** `handleDeleteOrder`: nothing unless confirmed; after a successful
      `DELETE` every order with that id leaves the list, the others keep
      their order; a failed one shows an error. */
  function DeleteOrder(v: OrdersView, orderId: string, confirmed: bool, requestOk: bool): (r: OrdersView)
    ensures !confirmed ==> r == v
    ensures confirmed && !requestOk ==> r == v.(errorMessage := "Error deleting order.")
    ensures confirmed && requestOk ==> r.errorMessage == v.errorMessage && |r.orders| <= |v.orders|
    ensures confirmed && requestOk ==> forall j :: 0 <= j < |r.orders| ==> r.orders[j].id != orderId
  {
    if !confirmed then v
    else if requestOk then v.(orders := RemoveKey(v.orders, OrderId, orderId))
    else v.(errorMessage := "Error deleting order.")
  }

  /** A confirmed, successful delete keeps exactly the orders with another
      id; with distinct ids it splices out the one order with that id and
      keeps every other id distinct. */
  lemma DeleteOrderRemovesExactly(v: OrdersView, orderId: string)
    requires KeysDistinct(v.orders, OrderId)
    ensures var r := DeleteOrder(v, orderId, true, true);
      && (forall o :: o in r.orders <==> o in v.orders && o.id != orderId)
      && KeysDistinct(r.orders, OrderId)
      && var i := IndexOfKey(v.orders, OrderId, orderId);
         r.orders == if i == -1 then v.orders else v.orders[..i] + v.orders[i + 1..]
  {
    RemoveKeyMembers(v.orders, OrderId, orderId);
    RemoveKeyKeepsDistinct(v.orders, OrderId, orderId);
    var i := IndexOfKey(v.orders, OrderId, orderId);
    if i == -1 {
      RemoveAbsentKey(v.orders, OrderId, orderId);
    } else {
      RemoveUniqueKey(v.orders, OrderId, i);
    }
  }

  /** A status change keeps order ids distinct. */
  lemma ChangeStatusKeepsIds(v: OrdersView, orderId: string, response: Option<string>)
    requires KeysDistinct(v.orders, OrderId)
    ensures KeysDistinct(ChangeStatus(v, orderId, response).orders, OrderId)
  {
    if response.Some? {
      UpdateKeyKeepsDistinct(v.orders, OrderId, orderId, (o: Order) => o.(status := response.value));
    }
  }

  /** The client's admin pages and the server's `admin` gate agree on the
      users they admit: a token issued at login to a stored user opens the
      page exactly when the gate would let that user through. */
  lemma AdminGuardAgreesWithRoleGate(env: Env, u: UserRecord, nowMs: nat)
    requires IsSet(env.jwtSecret)
    ensures GenerateToken(env, UserController.ClaimsOf(u), nowMs).Success?
    ensures var t := GenerateToken(env, UserController.ClaimsOf(u), nowMs).value;
      Guard(Some(t)) == Stay <==> AuthMiddleware.RoleGate(Some(WithoutPassword(u))) == AuthMiddleware.CallNext
  {
    var t := GenerateToken(env, UserController.ClaimsOf(u), nowMs).value;
    assert Decode(t).value.claims.role == Some(u.role.Name());
    if u.role == UserRole {
      assert u.role.Name() != "admin" by { assert "user"[0] != "admin"[0]; }
    }
  }
}
