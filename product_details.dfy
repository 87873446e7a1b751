/** The product details page (src/pages/ProductDetailsPage.tsx): it keeps no
    cart state; "add to cart" reads the stored cart, updates it and writes it
    back. What it renders depends on the fetch's progress. */
module ProductDetails {
  import opened Wrappers
  import opened AuthHelper
  import opened Lists
  import opened Cart
  import opened Browser
  import opened Models

  /** `addToCart`: with a token that decodes to an email, the stored cart
      under `"cart-" + email` (an empty one when none is stored) gains one
      unit of the product, or the line `{ _id, name, price, 1 }`, and is
      written back; otherwise storage is left as it is. */
  method AddToCart(storage: LocalStorage, product: Product)
    modifies storage
    ensures storage.userToken == old(storage.userToken)
    ensures TokenEmail(old(storage.userToken)).None? ==> storage.carts == old(storage.carts)
    ensures TokenEmail(old(storage.userToken)).Some? ==>
      var key := CartKey(TokenEmail(storage.userToken).value);
      storage.carts == old(storage.carts)[key := Added(StoredCart(old(storage.carts), TokenEmail(storage.userToken).value),
                                                       product.id, product.name, product.price)]
  {
    var userToken := storage.userToken;
    if userToken.None? {
      return;  // "You must be logged in to add items to your cart."
    }
    var decodedToken := Decode(userToken.value);
    if decodedToken.None? {
      return;  // "Failed to decode user token"
    }
    var email := decodedToken.value.claims.email;
    if Truthy(email) {
      var cartKey := CartKey(email.value);
      var cart := if cartKey in storage.carts then storage.carts[cartKey] else [];
      var existingItemIndex := IndexOfKey(cart, ItemId, product.id);
      if existingItemIndex >= 0 {
        cart := cart[existingItemIndex := cart[existingItemIndex].(quantity := cart[existingItemIndex].quantity + 1)];
      } else {
        cart := cart + [CartItem(product.id, product.name, product.price, 1)];
      }
      storage.carts := storage.carts[cartKey := cart];
    }
  }

  /** What the page shows. */
  datatype View = LoadingView | ErrorView(message: string) | NotFoundView | DetailsView(product: Product)

  /** Loading first, then a non-empty error, then a missing product, then the details. */
  function Render(loading: bool, error: string, product: Option<Product>): (v: View)
    ensures loading <==> v == LoadingView
    ensures v.ErrorView? <==> !loading && error != ""
    ensures v.ErrorView? ==> v.message == error
    ensures v == NotFoundView <==> !loading && error == "" && product.None?
    ensures v.DetailsView? <==> !loading && error == "" && product.Some?
    ensures v.DetailsView? ==> v.product == product.value
  {
    if loading then LoadingView
    else if error != "" then ErrorView(error)
    else if product.None? then NotFoundView
    else DetailsView(product.value)
  }
}
