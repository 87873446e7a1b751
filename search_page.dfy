/** The search results page (src/pages/SearchPage.tsx): it fetches the
    products matching the `name` query parameter, unless that is missing or
    blank, and offers the same "add to cart" as the product list. */
module SearchPage {
  import opened Wrappers
  import opened AuthHelper
  import opened Lists
  import opened Text
  import opened Cart
  import opened Browser
  import opened Models

  /** `!name || name.trim() === ""` is false: there is a term worth sending. */
  predicate ShouldFetch(name: Option<string>)
  {
    name.Some? && Trim(name.value) != ""
  }

  class SearchPageState {
    const storage: LocalStorage
    var cart: seq<CartItem>
    var products: seq<Product>
    var loading: bool
    var error: string

    /** Initial state: no results, not loading, no error, and the cart read
        from storage for the token's email. */
    constructor (storage: LocalStorage)
      ensures this.storage == storage
      ensures cart == InitialCart(storage.userToken, storage.carts)
      ensures products == [] && !loading && error == ""
    {
      this.storage := storage;
      products, loading, error := [], false, "";
      var email := TokenEmail(storage.userToken);
      cart := if email.Some? then StoredCart(storage.carts, email.value) else [];
    }

    /** The fetch effect for query parameter `name`. `response` is what the
        request yields: the decoded product array, or the value thrown. With
        no term worth sending nothing happens and no request is made. */
    method FetchProducts(name: Option<string>, response: Result<seq<Product>, Thrown>) returns (requested: bool)
      modifies this
      ensures requested <==> ShouldFetch(name)
      ensures cart == old(cart)
      ensures !requested ==> products == old(products) && loading == old(loading) && error == old(error)
      ensures requested ==> !loading
      ensures requested && response.Success? ==> products == response.value && error == old(error)
      ensures requested && response.Failure? ==> products == old(products) && error == ErrorText(response.error)
    {
      if name.None? || Trim(name.value) == "" {
        requested := false;
        return;
      }
      requested := true;
      loading := true;
      match response {
        case Success(data) =>
          products := data;
        case Failure(err) =>
          error := ErrorText(err);
      }
      loading := false;
    }

    /** `addToCart`: as on the product list, one unit more (or a new line
        `{ _id, name, price, 1 }`) stored under the current token's email;
        with no usable email nothing changes. */
    method AddToCart(product: Product)
      modifies this, storage
      ensures storage.userToken == old(storage.userToken)
      ensures products == old(products) && loading == old(loading) && error == old(error)
      ensures TokenEmail(old(storage.userToken)).None? ==> cart == old(cart) && storage.carts == old(storage.carts)
      ensures TokenEmail(old(storage.userToken)).Some? ==>
        && cart == Added(old(cart), product.id, product.name, product.price)
        && storage.carts == old(storage.carts)[CartKey(TokenEmail(storage.userToken).value) := cart]
    {
      var userToken := storage.userToken;
      if userToken.None? {
        return;  // "You must be logged in to add items to your cart."
      }
      var decodedToken := Decode(userToken.value);
      if decodedToken.None? {
        return;  // "Failed to decode user token"
      }
      var email := decodedToken.value.claims.email;
      if Truthy(email) {
        var updatedCart := cart;
        var existingItemIndex := IndexOfKey(updatedCart, ItemId, product.id);
        if existingItemIndex > -1 {
          updatedCart := updatedCart[existingItemIndex := updatedCart[existingItemIndex].(quantity := updatedCart[existingItemIndex].quantity + 1)];
        } else {
          updatedCart := updatedCart + [CartItem(product.id, product.name, product.price, 1)];
        }
        storage.carts := storage.carts[CartKey(email.value) := updatedCart];
        cart := updatedCart;
      }
    }
  }

  /** A whitespace-only or empty term never reaches the server, and a term
      with any other character always does. */
  lemma {:induction false} BlankTermsAreNotSent(name: string)
    ensures ShouldFetch(Some(name)) <==> exists i :: 0 <= i < |name| && !IsWhitespace(name[i])
  {
    if !ShouldFetch(Some(name)) {
      assert Blank(name);
    } else {
      assert !Blank(name);
    }
  }
}
