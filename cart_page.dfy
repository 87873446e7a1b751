/** The cart page (src/pages/CartPage.tsx): the signed-in user's cart in
    component state, kept equal to the copy in `localStorage` under
    `"cart-" + email`; buttons to add or remove one unit or a whole line;
    the total; and the order it posts. The page is reserved to role "user". */
module CartPage {
  import opened Wrappers
  import opened AuthHelper
  import opened Lists
  import opened Cart
  import opened Browser

  /** One line of the posted order: `{ productId, quantity }`. */
  datatype OrderLine = OrderLine(productId: string, quantity: int)

  /** The body of `POST /orders`. */
  datatype OrderRequest = OrderRequest(email: string, items: seq<OrderLine>, totalPrice: int)

  function LineOf(x: CartItem): OrderLine
  {
    OrderLine(x.id, x.quantity)
  }

  /** `cart.map(item => ({ productId: item._id, quantity: item.quantity }))`. */
  function Lines(cart: seq<CartItem>): (r: seq<OrderLine>)
    ensures |r| == |cart|
    ensures forall j :: 0 <= j < |cart| ==> r[j] == OrderLine(cart[j].id, cart[j].quantity)
  {
    if cart == [] then [] else [LineOf(cart[0])] + Lines(cart[1..])
  }

  /** The order placed for a cart: one line per item in cart order, at the cart's total. */
  function OrderOf(email: string, cart: seq<CartItem>): (o: OrderRequest)
    ensures o.email == email && |o.items| == |cart| && o.totalPrice == Total(cart)
    ensures forall j :: 0 <= j < |cart| ==> o.items[j].productId == cart[j].id && o.items[j].quantity == cart[j].quantity
  {
    OrderRequest(email, Lines(cart), Total(cart))
  }

  /** With non-negative prices and positive quantities the total is never negative. */
  lemma {:induction false} TotalNonNegative(cart: seq<CartItem>)
    requires forall j :: 0 <= j < |cart| ==> cart[j].price >= 0 && cart[j].quantity >= 1
    ensures Total(cart) >= 0
  {
    if cart != [] {
      var init := cart[..|cart| - 1];
      assert forall j :: 0 <= j < |init| ==> init[j] == cart[j];
      TotalNonNegative(init);
      assert LineTotal(cart[|cart| - 1]) >= 0;
    }
  }

  class CartPageState {
    const storage: LocalStorage
    var cart: seq<CartItem>
    var email: Option<string>
    var errorMessage: string
    /** The route the guard navigated to, if any. */
    var navigatedTo: Option<string>

    /** The email is the signed-in user's (truthy when set); without it the
        cart is never loaded nor updated, so it stays empty. */
    ghost predicate Valid()
      reads this
    {
      (email.Some? ==> email.value != "") && (email.None? ==> cart == [])
    }

    /** Mounting the page: the role guard runs first (an alert and `/login`
        with no token), then the email is read from the token and, when
        there is one, the stored cart is loaded. Navigating away does not
        stop the effect, so the cart is loaded even for a rejected role. */
    constructor (storage: LocalStorage)
      ensures this.storage == storage && Valid()
      ensures var g := RoleGuard(storage.userToken, "user");
        && navigatedTo == (if g.Redirect? then Some(g.to) else None)
        && errorMessage == (if g.Redirect? && g.error.Some? then g.error.value else "")
      ensures email == TokenEmail(storage.userToken)
      ensures cart == InitialCart(storage.userToken, storage.carts)
    {
      this.storage := storage;
      var g := RoleGuard(storage.userToken, "user");
      navigatedTo := if g.Redirect? then Some(g.to) else None;
      errorMessage := if g.Redirect? && g.error.Some? then g.error.value else "";
      var userEmail := TokenEmail(storage.userToken);
      email := userEmail;
      cart := [];
      if userEmail.Some? {
        cart := StoredCart(storage.carts, userEmail.value);
      }
    }

    /** `updateCartInLocalStorage`: with an email, the state and the stored
        copy both become `updated`; without one nothing happens. */
    method UpdateCartInLocalStorage(updated: seq<CartItem>)
      requires Valid()
      modifies this, storage
      ensures Valid()
      ensures email == old(email) && errorMessage == old(errorMessage) && navigatedTo == old(navigatedTo)
      ensures storage.userToken == old(storage.userToken)
      ensures old(email).Some? ==> cart == updated && storage.carts == old(storage.carts)[CartKey(email.value) := updated]
      ensures old(email).None? ==> cart == old(cart) && storage.carts == old(storage.carts)
    {
      if email.Some? {
        cart := updated;
        storage.carts := storage.carts[CartKey(email.value) := updated];
      }
    }

    /** `addOneItem`: on a copy, one more unit of an item already there, or a
        new line `{ id, "Product Name", price, 1 }` at the end; then persisted. */
    method AddOneItem(id: string, price: int)
      requires Valid()
      modifies this, storage
      ensures Valid()
      ensures email == old(email) && storage.userToken == old(storage.userToken)
      ensures old(email).Some? ==> cart == Added(old(cart), id, "Product Name", price)
                                   && storage.carts == old(storage.carts)[CartKey(email.value) := cart]
      ensures old(email).None? ==> cart == old(cart) && storage.carts == old(storage.carts)
    {
      var updatedCart := cart;
      var productIndex := IndexOfKey(updatedCart, ItemId, id);
      if productIndex != -1 {
        updatedCart := updatedCart[productIndex := updatedCart[productIndex].(quantity := updatedCart[productIndex].quantity + 1)];
      } else {
        updatedCart := updatedCart + [CartItem(id, "Product Name", price, 1)];
      }
      UpdateCartInLocalStorage(updatedCart);
    }

    /** `removeOneItem`: one unit fewer, the line spliced out at quantity 1;
        an absent id writes nothing at all. */
    method RemoveOneItem(id: string)
      requires Valid()
      modifies this, storage
      ensures Valid()
      ensures email == old(email) && storage.userToken == old(storage.userToken)
      ensures IndexOfKey(old(cart), ItemId, id) == -1 ==> cart == old(cart) && storage.carts == old(storage.carts)
      ensures IndexOfKey(old(cart), ItemId, id) != -1 && old(email).Some? ==>
        cart == RemovedOne(old(cart), id) && storage.carts == old(storage.carts)[CartKey(email.value) := cart]
      ensures old(email).None? ==> cart == old(cart) && storage.carts == old(storage.carts)
    {
      var updatedCart := cart;
      var productIndex := IndexOfKey(updatedCart, ItemId, id);
      if productIndex != -1 {
        if updatedCart[productIndex].quantity > 1 {
          updatedCart := updatedCart[productIndex := updatedCart[productIndex].(quantity := updatedCart[productIndex].quantity - 1)];
        } else {
          updatedCart := updatedCart[..productIndex] + updatedCart[productIndex + 1..];
        }
        UpdateCartInLocalStorage(updatedCart);
      }
    }

    /** `removeItem`: every line with that id is filtered out, then persisted. */
    method RemoveItem(id: string)
      requires Valid()
      modifies this, storage
      ensures Valid()
      ensures email == old(email) && storage.userToken == old(storage.userToken)
      ensures old(email).Some? ==> cart == RemovedAll(old(cart), id)
                                   && storage.carts == old(storage.carts)[CartKey(email.value) := cart]
      ensures old(email).None? ==> cart == old(cart) && storage.carts == old(storage.carts)
    {
      UpdateCartInLocalStorage(RemovedAll(cart, id));
    }

    /** `calculateTotal`: the `reduce` that adds price × quantity item by
        item, starting from 0; its result is the cart's `Total`. */
    method CalculateTotal() returns (t: int)
      ensures t == Total(cart)
    {
      t := 0;
      var i := 0;
      while i < |cart|
        invariant 0 <= i <= |cart|
        invariant t == SumOf(cart[..i], LineTotal)
      {
        assert cart[..i + 1] == cart[..i] + [cart[i]];
        SumSnoc(cart[..i], cart[i], LineTotal);
        t := t + cart[i].price * cart[i].quantity;
        i := i + 1;
      }
      assert cart[..i] == cart;
    }

    /** `handlePlaceOrder`: without an email nothing is sent. Otherwise the
        order for the current cart is posted; `response` is the status the
        server answered with (None: the request failed). Only a 201 clears
        the stored cart and the state. */
    method PlaceOrder(response: Option<int>) returns (sent: Option<OrderRequest>)
      requires Valid()
      modifies this, storage
      ensures Valid()
      ensures email == old(email) && storage.userToken == old(storage.userToken)
      ensures old(email).None? ==> sent.None?
      ensures old(email).Some? ==> sent == Some(OrderOf(email.value, old(cart)))
      ensures old(email).Some? && response == Some(201) ==>
        cart == [] && storage.carts == old(storage.carts) - {CartKey(email.value)}
      ensures old(email).None? || response != Some(201) ==>
        cart == old(cart) && storage.carts == old(storage.carts)
    {
      if email.None? {
        sent := None;
        return;
      }
      var totalPrice := CalculateTotal();
      sent := Some(OrderRequest(email.value, Lines(cart), totalPrice));
      if response == Some(201) {
        storage.carts := storage.carts - {CartKey(email.value)};
        cart := [];
      }
    }
  }
}
