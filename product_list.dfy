/** The product list of the home page (src/components/ProdutList.tsx): its
    cart state starts from the signed-in user's stored cart, and "add to
    cart" adds one unit and writes the result back under `"cart-" + email`. */
module ProductList {
  import opened Wrappers
  import opened AuthHelper
  import opened Lists
  import opened Cart
  import opened Browser
  import opened Models

  class ProductListState {
    const storage: LocalStorage
    var cart: seq<CartItem>

    /** `useState(() => ...)`: the stored cart when the token carries an email, else `[]`. */
    constructor (storage: LocalStorage)
      ensures this.storage == storage
      ensures cart == InitialCart(storage.userToken, storage.carts)
    {
      this.storage := storage;
      var userToken := storage.userToken;
      cart := [];
      if userToken.Some? {
        var decodedToken := Decode(userToken.value);
        if decodedToken.Some? && Truthy(decodedToken.value.claims.email) {
          cart := StoredCart(storage.carts, decodedToken.value.claims.email.value);
        }
      }
    }

    /** `addToCart`: the email is read from the token at the time of the
        click; with one, the updater copies the cart, adds one unit of the
        product (or appends `{ _id, name, price, 1 }`) and stores the copy
        under that email's key. With no token, a token that does not decode
        or one without an email, neither the cart nor storage changes. */
    method AddToCart(product: Product)
      modifies this, storage
      ensures storage.userToken == old(storage.userToken)
      ensures TokenEmail(old(storage.userToken)).None? ==> cart == old(cart) && storage.carts == old(storage.carts)
      ensures TokenEmail(old(storage.userToken)).Some? ==>
        && cart == Added(old(cart), product.id, product.name, product.price)
        && storage.carts == old(storage.carts)[CartKey(TokenEmail(storage.userToken).value) := cart]
    {
      var userToken := storage.userToken;
      if userToken.None? {
        return;  // "You must be logged in to add items to your cart."
      }
      var decodedToken := Decode(userToken.value);
      if decodedToken.None? {
        return;  // "Failed to decode user token"
      }
      var email := decodedToken.value.claims.email;
      if Truthy(email) {
        var updatedCart := cart;
        var existingItemIndex := IndexOfKey(updatedCart, ItemId, product.id);
        if existingItemIndex > -1 {
          updatedCart := updatedCart[existingItemIndex := updatedCart[existingItemIndex].(quantity := updatedCart[existingItemIndex].quantity + 1)];
        } else {
          updatedCart := updatedCart + [CartItem(product.id, product.name, product.price, 1)];
        }
        storage.carts := storage.carts[CartKey(email.value) := updatedCart];
        cart := updatedCart;
      }
    }
  }
}
