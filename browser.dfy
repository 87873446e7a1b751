/** What the client pages share: `localStorage` (the `userToken` entry and
    the carts under `"cart-" + email`), reading the signed-in user's email out
    of the stored token, the cart a page starts from, the token-and-role
    redirect of the protected pages, and the message a failed fetch shows.
    `jwtDecode(token)` and `JSON.parse(atob(token.split(".")[1]))` both read
    the payload without checking signature or expiry; the model reads both
    as `Decode`, so the base64url characters `-` and `_`, which `jwtDecode`
    accepts and `atob` rejects, are not told apart. */
module Browser {
  import opened Wrappers
  import opened AuthHelper
  import opened Cart

  /** The browser's `localStorage`. The stored token (`"userToken"`) and the
      carts (`"cart-" + email`, JSON arrays read back by `JSON.parse`) live
      under keys that never coincide, so they are two fields here. */
  class LocalStorage {
    var userToken: Option<Jwt>
    var carts: map<string, seq<CartItem>>

    constructor (userToken: Option<Jwt>, carts: map<string, seq<CartItem>>)
      ensures this.userToken == userToken && this.carts == carts
    {
      this.userToken := userToken;
      this.carts := carts;
    }
  }

  /** JavaScript truthiness of a string that may be `undefined`/`null`. */
  predicate Truthy(s: Option<string>)
  {
    s.Some? && s.value != ""
  }

  /** `decodedToken?.email` when the stored token decodes and the email is
      truthy; None when there is no token, it does not decode, or it carries
      no (or an empty) email. */
  function TokenEmail(token: Option<Jwt>): (e: Option<string>)
    ensures e.Some? <==> token.Some? && Decode(token.value).Some? && Truthy(Decode(token.value).value.claims.email)
    ensures e.Some? ==> e == Decode(token.value).value.claims.email && e.value != ""
  {
    if token.None? then None
    else match Decode(token.value)
      case None => None
      case Some(p) => if Truthy(p.claims.email) then p.claims.email else None
  }

  /** `localStorage.getItem("cart-" + email)` parsed, or `[]` when there is none. */
  function StoredCart(carts: map<string, seq<CartItem>>, email: string): seq<CartItem>
  {
    if CartKey(email) in carts then carts[CartKey(email)] else []
  }

  /** The cart a page starts from: the signed-in user's stored cart, or `[]`. */
  function InitialCart(token: Option<Jwt>, carts: map<string, seq<CartItem>>): seq<CartItem>
  {
    match TokenEmail(token)
    case None => []
    case Some(email) => StoredCart(carts, email)
  }

  /** Writing a cart under the signed-in user's key and reloading the page
      gives back that cart; other users' carts are untouched. */
  lemma {:induction false} StoreThenLoad(token: Option<Jwt>, carts: map<string, seq<CartItem>>, cart: seq<CartItem>, other: string)
    requires TokenEmail(token).Some?
    ensures var saved := carts[CartKey(TokenEmail(token).value) := cart];
      && InitialCart(token, saved) == cart
      && (other != TokenEmail(token).value ==> StoredCart(saved, other) == StoredCart(carts, other))
  {
    var email := TokenEmail(token).value;
    if other != email && CartKey(other) == CartKey(email) {
      CartKeyInjective(other, email);
    }
  }

  /** Where a protected page's guard effect sends the browser, and the
      error message it sets (None: left as it was). */
  datatype GuardOutcome = Stay | Redirect(to: string, error: Option<string>)

  const NotAuthorized := "You are not authorized to view this page."
  const DecodingFailed := "Error decoding token."

  /** The guard effect of a page reserved to `role`: no token goes to
      `/login`, a token that does not decode to `/login` with an error, a
      decoded role other than `role` to `/` with an error. */
  function RoleGuard(token: Option<Jwt>, role: string): (g: GuardOutcome)
    ensures g == Stay <==> token.Some? && Decode(token.value).Some? && Decode(token.value).value.claims.role == Some(role)
    ensures token.None? ==> g == Redirect("/login", None)
    ensures token.Some? && Decode(token.value).None? ==> g == Redirect("/login", Some(DecodingFailed))
    ensures token.Some? && Decode(token.value).Some? && Decode(token.value).value.claims.role != Some(role) ==>
      g == Redirect("/", Some(NotAuthorized))
    ensures g.Redirect? && g.to == "/" ==> g.error == Some(NotAuthorized)
    ensures g.Redirect? && g.to != "/" ==> g.to == "/login"
  {
    if token.None? then Redirect("/login", None)
    else match Decode(token.value)
      case None => Redirect("/login", Some(DecodingFailed))
      case Some(p) => if p.claims.role != Some(role) then Redirect("/", Some(NotAuthorized)) else Stay
  }

  /** A value a rejected `fetch` throws: an `Error` carrying a message, or anything else. */
  datatype Thrown = ErrorObject(message: string) | OtherValue

  const UnknownError := "An unknown error occurred"

  /** `err instanceof Error ? err.message : "An unknown error occurred"`. */
  function ErrorText(err: Thrown): string
  {
    match err
    case ErrorObject(message) => message
    case OtherValue => UnknownError
  }
}
