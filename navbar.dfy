/** The navigation bar (src/components/Navbar.tsx): it reads the stored
    token once to show who is signed in, drops a token that has expired or
    does not decode, offers a search box and a logout, and chooses the
    account menu by role. */
module Navbar {
  import opened Wrappers
  import opened AuthHelper
  import opened Text
  import opened Browser
  import SearchPage

  /** `decoded.exp * 1000 < Date.now()`; a token without `exp` compares NaN and never expires here. */
  predicate ExpiredOnClient(exp: Option<int>, nowMs: int)
  {
    exp.Some? && exp.value * 1000 < nowMs
  }

  /** `email.split("@")[0]`. */
  function Username(email: string): (name: string)
    ensures '@' !in name
    ensures |name| <= |email| && name == email[..|name|]
    ensures '@' in email ==> |name| < |email| && email[|name|] == '@'
    ensures '@' !in email ==> name == email
  {
    BeforeFirst(email, '@')
  }

  /** The entries of the account dropdown. */
  datatype MenuEntry = MyAccount | Dashboard | ProductsLink | OrdersLink | UsersLink | Logout | Login

  /** Signed in: "My Account" for role "user", the four admin links for role
      "admin", then "Logout"; signed out: "Login" only. */
  function Menu(isLoggedIn: bool, role: Option<string>): (m: seq<MenuEntry>)
    ensures !isLoggedIn ==> m == [Login]
    ensures isLoggedIn ==> |m| >= 1 && Login !in m && m[|m| - 1] == Logout
    ensures MyAccount in m <==> isLoggedIn && role == Some("user")
    ensures Dashboard in m <==> isLoggedIn && role == Some("admin")
    ensures isLoggedIn && role == Some("user") ==> m == [MyAccount, Logout]
    ensures isLoggedIn && role == Some("admin") ==> m == [Dashboard, ProductsLink, OrdersLink, UsersLink, Logout]
    ensures isLoggedIn && role != Some("user") && role != Some("admin") ==> m == [Logout]
  {
    if !isLoggedIn then [Login]
    else
      (if role == Some("user") then [MyAccount] else [])
      + (if role == Some("admin") then [Dashboard, ProductsLink, OrdersLink, UsersLink] else [])
      + [Logout]
  }

  /** The route `handleSearch` navigates to, None when the trimmed term is
      empty. `encodeURIComponent` is the parameter `encode`. */
  function SearchRoute(searchTerm: string, encode: string -> string): (route: Option<string>)
    ensures route.None? <==> Blank(searchTerm)
    ensures route.Some? ==> route.value == "/search?name=" + encode(Trim(searchTerm))
  {
    var term := Trim(searchTerm);
    if term != "" then Some("/search?name=" + encode(term)) else None
  }

  class NavbarState {
    const storage: LocalStorage
    var username: Option<string>
    var isLoggedIn: bool
    var userRole: Option<string>
    var navigatedTo: Option<string>

    constructor (storage: LocalStorage)
      ensures this.storage == storage
      ensures username.None? && !isLoggedIn && userRole.None? && navigatedTo.None?
    {
      this.storage := storage;
      username, isLoggedIn, userRole, navigatedTo := None, false, None, None;
    }

    /** The mount effect at time `nowMs`. An expired token is removed and
        the state reset; a token that does not decode, or that has no email
        to split, is removed and the bar shows signed out (username and role
        are left as they were); otherwise the username, role and signed-in
        flag are set from the token. */
    method LoadSession(nowMs: int)
      modifies this, storage
      ensures storage.carts == old(storage.carts) && navigatedTo == old(navigatedTo)
      ensures old(storage.userToken).None? ==>
        storage.userToken.None? && !isLoggedIn && username == old(username) && userRole == old(userRole)
      ensures old(storage.userToken).Some? && Decode(old(storage.userToken).value).None? ==>
        storage.userToken.None? && !isLoggedIn && username == old(username) && userRole == old(userRole)
      ensures old(storage.userToken).Some? && Decode(old(storage.userToken).value).Some? ==>
        var p := Decode(old(storage.userToken).value).value;
        if ExpiredOnClient(p.exp, nowMs) then
          storage.userToken.None? && !isLoggedIn && username.None? && userRole.None?
        else if p.claims.email.None? then
          storage.userToken.None? && !isLoggedIn && username == old(username) && userRole == old(userRole)
        else
          storage.userToken == old(storage.userToken) && isLoggedIn
          && username == Some(Username(p.claims.email.value)) && userRole == p.claims.role
    {
      var userToken := storage.userToken;
      if userToken.None? {
        isLoggedIn := false;
        return;
      }
      var decoded := Decode(userToken.value);
      if decoded.None? {
        // jwtDecode throws: "Invalid token"
        storage.userToken := None;
        isLoggedIn := false;
        return;
      }
      if ExpiredOnClient(decoded.value.exp, nowMs) {
        storage.userToken := None;
        isLoggedIn := false;
        username := None;
        userRole := None;
        return;
      }
      if decoded.value.claims.email.None? {
        // `undefined.split` throws and lands in the same catch
        storage.userToken := None;
        isLoggedIn := false;
        return;
      }
      username := Some(Username(decoded.value.claims.email.value));
      userRole := decoded.value.claims.role;
      isLoggedIn := true;
    }

    /** `handleLogout`: the token is removed, the bar resets and goes to `/login`. */
    method HandleLogout()
      modifies this, storage
      ensures storage.userToken.None? && storage.carts == old(storage.carts)
      ensures username.None? && !isLoggedIn && userRole.None? && navigatedTo == Some("/login")
    {
      storage.userToken := None;
      username, isLoggedIn, userRole := None, false, None;
      navigatedTo := Some("/login");
    }

    /** `handleSearch`: navigates only for a term that is not blank. */
    method HandleSearch(searchTerm: string, encode: string -> string)
      modifies this
      ensures username == old(username) && isLoggedIn == old(isLoggedIn) && userRole == old(userRole)
      ensures navigatedTo == if SearchRoute(searchTerm, encode).Some? then SearchRoute(searchTerm, encode) else old(navigatedTo)
    {
      var term := Trim(searchTerm);
      if term != "" {
        navigatedTo := Some("/search?name=" + encode(term));
      }
    }
  }

  /** A token the server still accepts is never dropped as expired by the
      bar: the bar's test lags the server's by less than a second. */
  lemma ServerValidIsClientValid(p: Payload, nowMs: nat)
    requires Unexpired(p, nowMs)
    ensures !ExpiredOnClient(p.exp, nowMs)
  {
    if p.exp.Some? {
      assert nowMs / 1000 < p.exp.value;
      assert nowMs < (nowMs / 1000 + 1) * 1000;
    }
  }

  /** At the exact millisecond `exp * 1000` the server already rejects the
      token while the bar still shows it signed in. */
  lemma ExpiryBoundary(p: Payload)
    requires p.exp.Some? && p.exp.value >= 0
    ensures !Unexpired(p, p.exp.value * 1000) && !ExpiredOnClient(p.exp, p.exp.value * 1000)
  {
    assert p.exp.value * 1000 / 1000 == p.exp.value;
  }

  /** A search the bar starts is always run by the search page: with an
      `encode` that the page's query parsing undoes, the page reads back the
      trimmed term, which is not blank. */
  lemma SearchReachesSearchPage(searchTerm: string, encode: string -> string, decode: string -> string)
    requires forall s :: decode(encode(s)) == s
    requires SearchRoute(searchTerm, encode).Some?
    ensures SearchPage.ShouldFetch(Some(decode(encode(Trim(searchTerm)))))
  {
    var term := Trim(searchTerm);
    assert decode(encode(term)) == term;
    assert term != [] && !IsWhitespace(term[0]);
    assert !Blank(term);
  }
}
