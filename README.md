# RedShift storefront: session, credential, product and cart logic in Dafny

This project models the parts of the RedShift storefront that make decisions:

- **Backend session guard** (`protect`) and **role gate** (`admin`): the per-request procedure that reads the `Bearer` header and the `refreshToken` cookie. It may attach the user and may set a fresh `accessToken` cookie. It then calls `next` or answers 401/403.
- **Token helper**: JSON Web Tokens as an abstract codec. A token is a payload (claims, `iat`, optional `exp`) plus the secret that signed it, or something malformed. `jwt.verify` succeeds exactly when the secret is set, the token was signed with it, and the token has not expired.
- **Credential service**: registration, login and deletion over the users collection. The password hash and `bcrypt.compare` are abstract functions.
- **Product handlers**: the validation order of `updateProduct`, the 24-hex-digit id check, `addProduct`'s image requirement and `"true"` coercion, `deleteProduct`, and `searchProducts`' empty-name branch, over the products collection as a map.
- **Client pages**:
  - the cart (add one, remove one, remove line, total, order payload) and its copy in `localStorage` under `"cart-" + email`;
  - the three duplicated `addToCart`s;
  - the admin pages' list updates and role guards;
  - the navigation bar's session check, username, search hand-off and menu.

Prices are integer cents. `Date.now()` is the parameter `nowMs`. The Mongo-generated `_id` of a new document is the parameter `freshId`. `parseFloat` is a caller-supplied `string -> Option<int>`. `encodeURIComponent` is a caller-supplied `encode`. A request's success or failure is a parameter of the handler that runs after it.

The model follows the code on these points:
- the privileged role is the string `"admin"`;
- a missing signing secret is a per-request failure: `protect` maps it to a 401, `generateToken` throws into `next(error)`;
- the refreshed access token carries only `id`;
- registration saves the user before generating the token, so a missing `JWT_SECRET` leaves the user saved and the reply is an error.

Modules: `Wrappers`, `Text`, `Lists`, `Models`, `AuthHelper` (tokens.dfy), `AuthMiddleware`, `UserController`, `ProductController`, `Cart`, `Browser`, `CartPage`, `ProductList`, `SearchPage`, `ProductDetails`, `ProductEdit`, `OrdersPage`, `Navbar`.

## Model

| member | source | states |
|---|---|---|
| AuthHelper.Verify | backend/src/middleware/authHelper.ts:36 | `jwt.verify` succeeds iff the secret is set, the token was signed with it and the current second is before `exp`; the result is the token's payload |
| AuthHelper.Sign | backend/src/middleware/authHelper.ts:13 | `jwt.sign` fails iff the secret is unset; the token carries the claims, `iat` = now and `exp` = now + lifetime, and verifies with that secret exactly until `exp` |
| AuthHelper.GenerateToken | backend/src/middleware/authHelper.ts:9-14 | throws "JWT_SECRET" iff the secret is unset; otherwise a one-day token whose verified claims are the given payload |
| AuthHelper.GenerateRefreshToken | backend/src/middleware/authHelper.ts:16-21 | throws "JWT_REFRESH_SECRET" iff that secret is unset; otherwise a seven-day token that `isRefreshTokenValid` accepts and that never verifies as an access token when the two secrets differ |
| AuthHelper.IsRefreshTokenValid | backend/src/middleware/authHelper.ts:23-30 | never fails; true iff verification against the refresh secret succeeds |
| AuthHelper.VerifyToken | backend/src/middleware/authHelper.ts:32-39 | fails with the helper's own error when `JWT_SECRET` is unset, fails when verification fails, otherwise returns the decoded payload |
| AuthHelper.RefreshAccessToken | backend/src/middleware/authHelper.ts:41-47 | null iff the refresh token is invalid; otherwise `generateToken(payload)`, whose claims are the given payload, and which still throws without `JWT_SECRET` |
| AuthHelper.AccessTokenRoundTrip | backend/src/middleware/authHelper.ts:9-39 | a token from `generateToken` verifies to the same claims at any time before its day is over, and fails as expired afterwards |
| AuthMiddleware.BearerPayload | backend/src/middleware/authMiddleware.ts:12-15 | present iff there is a second word and `jwt.verify` accepts it, and then it is exactly the payload `jwt.verify` returns, which is the token's decoded payload |
| AuthMiddleware.RotateAccessToken | backend/src/middleware/authMiddleware.ts:34-38 | a new token exists iff the refresh token verifies and `JWT_SECRET` is set; its claims are only the refresh token's `id`, it lasts one day, and it verifies as an access token |
| AuthMiddleware.Guard | backend/src/middleware/authMiddleware.ts:9-69 | every path ends in `next` or one 401; failed verification or a throwing lookup gives "Not authorized, token failed"; a missing user gives "User not found"; ≥ 43200 s left gives `next` with the user and no cookie; near expiry gives "No refresh token available", "Invalid refresh token", or `next` with the rotated token as the cookie; without a Bearer header the user is never attached and the outcome is "Not authorized, no token", "Invalid or expired refresh token", or `next` with the rotated token as the cookie; whenever a refresh cookie is consulted, the cookie written is exactly the rotated token (none when rotation fails), and cookies are written only on `next` |
| AuthMiddleware.Protect | backend/src/middleware/authMiddleware.ts:9-69 | performed step by step on mutable request/response objects, `protect` ends with the outcome, attached user and `accessToken` cookie (httpOnly, maxAge 86400000) that `Guard` decides, so a successful refresh always writes the rotated token; it writes status and message only when it replies |
| AuthMiddleware.RoleGate | backend/src/middleware/authMiddleware.ts:71-76 | `next` iff the attached user's role is "admin"; otherwise, including with no user, 403 "Access denied. Admins only." |
| AuthMiddleware.Admin | backend/src/middleware/authMiddleware.ts:71-76 | on the request object, the outcome is `RoleGate(req.user)`; a 403 is written to the response only on denial, and cookies are untouched |
| AuthMiddleware.FindByIdMember | backend/src/middleware/authMiddleware.ts:16 | in a collection with unique ids, `findById` finds each stored user |
| AuthMiddleware.FreshAccessTokenPasses | backend/src/middleware/authMiddleware.ts:12-27 | a token issued at login to a stored user passes the guard for its first twelve hours: `next`, that user attached, no cookie |
| AuthMiddleware.RefreshOnlyRequestIsNotAdmin | backend/src/middleware/authMiddleware.ts:51-76 | whatever `protect` decides for a request without a Bearer header, it attaches no user, and `admin` applied to the user it attached answers 403 |
| Models.FindByEmail | backend/src/controllers/userController.ts:12 | `findOne({ email })` is absent iff no document has that email, otherwise a stored document with it |
| Models.FindById | backend/src/middleware/authMiddleware.ts:16 | `findById` is absent iff no document has that id, otherwise a stored document with it |
| Models.FindAppendedByEmail | backend/src/controllers/userController.ts:12-24 | after saving a user whose email was free, `findOne` by that email returns exactly the new user |
| UserController.UserCollection.Register | backend/src/controllers/userController.ts:6-39 | an existing email gives 400 "User already exists" with no change; an email that is empty or all whitespace fails the schema's `required` check and is forwarded with no change; otherwise exactly one user is appended, with the hashed password and role "user", and the reply is 201 with a token for its id, email and role "user" (or the token error, with the user already saved); the collection keeps unique ids and emails and no blank email |
| UserController.UserCollection.Login | backend/src/controllers/userController.ts:41-69 | unknown email gives 404 "User not found"; a failing compare gives 401 "Invalid email or password"; otherwise 200 with a token carrying the stored id, email and role; the collection is only read |
| UserController.UserCollection.DeleteUser | backend/src/controllers/userController.ts:80-91 | an absent id gives 404 with no change; otherwise exactly that user is removed (length drops by one, every other user stays) and the reply is 200 |
| UserController.AppendKeepsValid | backend/src/models/userModel.ts:13 | appending a user with an unused id and email keeps ids and emails unique |
| UserController.DeleteKeepsValid | backend/src/controllers/userController.ts:82 | removing one user keeps ids and emails unique |
| UserController.RegisterThenLogin | backend/src/controllers/userController.ts:17-65 | when `compare(p, hash(p))` holds, register (201), login with the same pair (200, a token verifying to id, email and role "user") and a second register (400) happen in that order |
| ProductController.AllHex | backend/src/controllers/productController.ts:51 | true iff every character is in `[0-9a-fA-F]` |
| ProductController.IsProductId | backend/src/controllers/productController.ts:51-53 | the id is accepted iff it has exactly 24 characters, all hexadecimal digits |
| ProductController.ProductCollection.SearchProducts | backend/src/controllers/productController.ts:14-26 | 200 with every product when `name` is absent or empty; otherwise exactly the stored products the pattern matches, unchanged |
| ProductController.ProductCollection.DeleteProduct | backend/src/controllers/productController.ts:28-41 | an absent id gives 404 with no change; otherwise exactly that product is removed and the reply is 200 |
| ProductController.ProductCollection.UpdateProduct | backend/src/controllers/productController.ts:43-67 | a non-boolean `inStock` gives 400 before the id is looked at; a malformed id gives 400 "Invalid product ID"; an unknown id 404; otherwise only that product's `inStock` changes and the updated document is returned with 200 |
| ProductController.ProductCollection.AddProduct | backend/src/controllers/productController.ts:88-110 | no file gives 400 "Image is required." and saves nothing; otherwise the document has `inStock` true iff the submitted value is the string "true" and image URL `protocol://host/uploads/filename`; it is saved with 201 unless the schema or the key rejects it |
| Lists.IndexOfKey | src/pages/CartPage.tsx:97 | `findIndex`: -1 iff no element has the key, otherwise the first index that has it |
| Lists.RemoveKey | src/pages/CartPage.tsx:120 | `filter`: no survivor has the key, and the result is no longer than the input |
| Lists.RemoveKeyMembers | src/pages/ProductEditPage.tsx:68 | the survivors of the filter are exactly the elements with another key |
| Lists.UpdateKey | src/pages/ProductEditPage.tsx:117-121 | `map`: same length; each element with the key is replaced by `f` of it, every other one is kept |
| Lists.RemoveKeyAppend | src/pages/OrdersPage.tsx:88 | filtering distributes over concatenation, so the survivors keep their order |
| Lists.RemoveAbsentKey | src/pages/OrdersPage.tsx:88 | filtering out a key no element has leaves the list as it is |
| Lists.RemoveUniqueKey | src/pages/OrdersPage.tsx:88 | with distinct keys, the filter splices out exactly the one element with that key |
| Lists.RemoveKeyKeepsDistinct | src/pages/ProductEditPage.tsx:68 | filtering keeps keys distinct |
| Lists.UpdateKeyKeepsDistinct | src/pages/ProductEditPage.tsx:117-121 | a key-preserving update keeps keys distinct |
| Text.TrimStart | src/components/Navbar.tsx:68 | the result is a suffix of the input, everything dropped is whitespace, and it does not start with whitespace |
| Text.TrimEnd | src/components/Navbar.tsx:68 | the result is a prefix of the input, everything dropped is whitespace, and it does not end with whitespace |
| Text.Trim | src/components/Navbar.tsx:68 | `trim()` is the infix of the input left after removing whitespace at both ends: what is dropped before and after it is all whitespace, it neither starts nor ends with whitespace, and it is empty iff the input is all whitespace |
| Text.BeforeFirst | src/components/Navbar.tsx:37 | `split(sep)[0]` is the prefix before the first `sep`, or the whole string when there is none |
| Cart.CartKeyInjective | src/pages/CartPage.tsx:88-93 | distinct emails have distinct `"cart-" + email` keys |
| Cart.Added | src/pages/CartPage.tsx:95-102 | an id already in the cart gets quantity + 1 with length and every other item unchanged; a new id is appended as `{ id, name, price, 1 }` |
| Cart.RemovedOne | src/pages/CartPage.tsx:106-117 | quantity > 1 drops by one in place; quantity 1 splices the line out; an absent id leaves the cart unchanged |
| Cart.RemovedAll | src/pages/CartPage.tsx:119-122 | no line with that id survives and the result is no longer than the cart |
| Cart.RemovedAllShape | src/pages/CartPage.tsx:119-122 | on a well-formed cart, `removeItem` splices out the one matching line and keeps the others in order |
| Cart.SumAppend | src/pages/CartPage.tsx:125 | the `reduce` sum of a concatenation is the sum of the parts |
| Cart.SumUpdate | src/pages/CartPage.tsx:125 | replacing one element changes the sum by the difference of the two terms |
| Cart.SumRemoveAt | src/pages/CartPage.tsx:125 | splicing out one element takes its term out of the sum |
| Cart.QuantityAbsent | src/pages/CartPage.tsx:95-122 | a product the cart does not hold has quantity 0 |
| Cart.QuantityOfItem | src/pages/CartPage.tsx:95-122 | in a well-formed cart a product's quantity is that of its one line |
| Cart.AddedQuantity | src/pages/CartPage.tsx:95-102 | adding raises that product's quantity by exactly one and leaves every other product's quantity alone |
| Cart.AddedTotal | src/pages/CartPage.tsx:95-102 | adding raises the total by the item's price (the given price for a new line) |
| Cart.AddedWellFormed | src/pages/CartPage.tsx:95-102 | adding keeps ids distinct and quantities ≥ 1 |
| Cart.RemovedOneWellFormed | src/pages/CartPage.tsx:106-117 | removing one unit keeps ids distinct and quantities ≥ 1 |
| Cart.RemovedOneQuantity | src/pages/CartPage.tsx:106-117 | removing one unit of a held product lowers its quantity by exactly one and no other; an absent id changes nothing |
| Cart.RemovedOneTotal | src/pages/CartPage.tsx:106-117 | removing one unit lowers the total by that line's price |
| Cart.RemovedAllWellFormed | src/pages/CartPage.tsx:119-122 | removing a line keeps ids distinct and quantities ≥ 1 |
| Cart.RemovedAllQuantityAndTotal | src/pages/CartPage.tsx:119-122 | removing a line sets that product's quantity to 0, leaves the others, and takes the line's price × quantity off the total |
| Browser.TokenEmail | src/components/ProdutList.tsx:28-35 | the email is present iff a stored token decodes with a non-empty email, and it is that email |
| Browser.StoreThenLoad | src/components/ProdutList.tsx:100-102 | after storing a cart under the signed-in user's key, reloading gives back that cart, and other users' carts are untouched |
| Browser.RoleGuard | src/pages/ProductEditPage.tsx:31-48 | the page stays iff the token decodes with the required role; no token goes to `/login` with no message; an undecodable token to `/login` with "Error decoding token."; a wrong role to `/` with "You are not authorized to view this page." |
| CartPage.Lines | src/pages/CartPage.tsx:146-149 | one `{ productId, quantity }` per cart item, in cart order |
| CartPage.OrderOf | src/pages/CartPage.tsx:144-151 | the order carries the email, one line per item in cart order, and `totalPrice` equal to the cart total |
| CartPage.TotalNonNegative | src/pages/CartPage.tsx:124-126 | with non-negative prices and quantities ≥ 1 the total is never negative |
| CartPage.CartPageState.constructor | src/pages/CartPage.tsx:33-70 | mounting applies the "user" role guard (error message and route), sets the email from the token, and loads that email's stored cart (empty without one) |
| CartPage.CartPageState.UpdateCartInLocalStorage | src/pages/CartPage.tsx:88-93 | with an email the state and the stored copy under `"cart-" + email` both become the new cart; without one nothing changes |
| CartPage.CartPageState.AddOneItem | src/pages/CartPage.tsx:95-104 | with an email the cart becomes `Added(cart, id, "Product Name", price)` and is stored; without one nothing changes |
| CartPage.CartPageState.RemoveOneItem | src/pages/CartPage.tsx:106-117 | an absent id changes neither state nor storage; otherwise the cart becomes `RemovedOne(cart, id)` and is stored |
| CartPage.CartPageState.RemoveItem | src/pages/CartPage.tsx:119-122 | with an email the cart becomes `RemovedAll(cart, id)` and is stored |
| CartPage.CartPageState.CalculateTotal | src/pages/CartPage.tsx:124-126 | the `reduce` loop that adds price × quantity item by item from 0 returns `Cart.Total(cart)`, whose behaviour under add and remove is given by `Cart.AddedTotal`, `Cart.RemovedOneTotal` and `Cart.RemovedAllQuantityAndTotal` |
| CartPage.CartPageState.PlaceOrder | src/pages/CartPage.tsx:137-166 | nothing is sent without an email; otherwise the order for the current cart is sent, and only a 201 removes the stored cart and empties the state |
| ProductList.ProductListState.constructor | src/components/ProdutList.tsx:27-44 | the initial cart is the stored cart of the token's email, or empty |
| ProductList.ProductListState.AddToCart | src/components/ProdutList.tsx:73-111 | with a token that decodes to an email, the cart becomes `Added(cart, id, name, price)` and is stored under that email's key; otherwise cart and storage are unchanged |
| SearchPage.SearchPageState.constructor | src/pages/SearchPage.tsx:25-43 | the initial cart is the stored cart of the token's email, or empty; no results, no error |
| SearchPage.SearchPageState.FetchProducts | src/pages/SearchPage.tsx:46-65 | a request is made iff the name is present and not blank; on success the results replace the list, on failure the error shows the `Error`'s message or "An unknown error occurred"; loading ends false |
| SearchPage.SearchPageState.AddToCart | src/pages/SearchPage.tsx:70-107 | with an email, `Added` on the cart, stored under that email's key; the results and error are untouched; without an email nothing changes |
| SearchPage.BlankTermsAreNotSent | src/pages/SearchPage.tsx:47-48 | a term is sent iff it has at least one non-whitespace character |
| ProductDetails.AddToCart | src/pages/ProductDetailsPage.tsx:33-67 | with an email, the stored cart (empty when missing) gets `Added` and is written back under the same key; otherwise storage is unchanged |
| ProductDetails.Render | src/pages/ProductDetailsPage.tsx:92-102 | loading first, then a non-empty error, then a missing product, then the details |
| ProductEdit.ProductEditState.constructor | src/pages/ProductEditPage.tsx:17-48 | empty list and form with `inStock` "true"; the "admin" role guard sets the route and error message |
| ProductEdit.ProductEditState.HandleDelete | src/pages/ProductEditPage.tsx:63-72 | nothing unless confirmed; after a successful delete every product with that id is filtered out; a failure sets "Error deleting product." |
| ProductEdit.ProductEditState.HandleFileChange | src/pages/ProductEditPage.tsx:74-80 | a chosen file becomes the form's image and its preview; otherwise nothing changes |
| ProductEdit.ProductEditState.HandleAddProduct | src/pages/ProductEditPage.tsx:82-112 | a request is sent iff name, category and description are non-empty, an image is chosen and the price parses; the submitted `inStock` is "true" iff the form value is exactly "true"; on success the returned product is appended and the form resets to empty fields, "true", no image, no error |
| ProductEdit.ProductEditState.HandleStockChange | src/pages/ProductEditPage.tsx:114-125 | after success only the matching products' `inStock` changes; length, order and all other fields stay; a failure sets an error and leaves the list |
| ProductEdit.SubmissionAccepted | src/pages/ProductEditPage.tsx:84-96 | a form the page accepts passes the server's schema, and the `inStock` the server derives from the submitted text is the flag the form selected |
| ProductEdit.StockChangeMirrorsServer | src/pages/ProductEditPage.tsx:116-121 | a list that mirrors the stored documents still mirrors them after the same stock change on both sides |
| OrdersPage.Guard | src/pages/OrdersPage.tsx:21-37 | the page stays iff the token decodes with role "admin"; no token goes to `/login` with no message; an undecodable token to `/login` with "Error decoding token."; a decoded role other than "admin" to `/` with "You are not authorized to view this page." |
| OrdersPage.ChangeStatus | src/pages/OrdersPage.tsx:58-77 | on success only the matching orders' status becomes the server's status, all else unchanged; on failure the list is unchanged and "Error updating order status." is shown |
| OrdersPage.DeleteOrder | src/pages/OrdersPage.tsx:79-93 | nothing unless confirmed; after success no order with that id remains; a failure leaves the list and shows "Error deleting order." |
| OrdersPage.DeleteOrderRemovesExactly | src/pages/OrdersPage.tsx:88 | with distinct ids, a successful delete keeps exactly the orders with another id, in order, splicing out the one match, and ids stay distinct |
| OrdersPage.ChangeStatusKeepsIds | src/pages/OrdersPage.tsx:69-73 | a status change keeps order ids distinct |
| OrdersPage.AdminGuardAgreesWithRoleGate | src/pages/OrdersPage.tsx:28-29 | for a token issued at login, the client's admin guard admits exactly the users the server's `admin` gate lets through |
| Navbar.Username | src/components/Navbar.tsx:37 | the part of the email before its first "@", or the whole email when it has none; it contains no "@" |
| Navbar.Menu | src/components/Navbar.tsx:120-143 | signed out: only Login; signed in as "user": exactly My Account then Logout; signed in as "admin": exactly the four admin links then Logout; any other role: only Logout |
| Navbar.SearchRoute | src/components/Navbar.tsx:67-71 | a route exists iff the term is not blank, and it is `/search?name=` followed by the encoded trimmed term |
| Navbar.NavbarState.LoadSession | src/components/Navbar.tsx:22-49 | an expired token is removed and username, role and signed-in are reset; an undecodable token or one without an email is removed and the bar shows signed out; otherwise username, role and signed-in come from the token |
| Navbar.NavbarState.HandleLogout | src/components/Navbar.tsx:55-61 | the token is removed, username and role become null, signed-in false, and the route `/login` |
| Navbar.NavbarState.HandleSearch | src/components/Navbar.tsx:67-71 | navigates to `SearchRoute` only when the term is not blank; otherwise nothing changes |
| Navbar.ServerValidIsClientValid | src/components/Navbar.tsx:29 | a token the server still accepts is never dropped as expired by the bar |
| Navbar.ExpiryBoundary | src/components/Navbar.tsx:29 | at the millisecond `exp * 1000` the server already rejects the token while the bar still shows it signed in |
| Navbar.SearchReachesSearchPage | src/components/Navbar.tsx:67-71 | a search the bar starts is always fetched by the search page, given that the page's query parsing undoes `encode` |

## Left out

- JWT cryptography, `bcryptjs` and `jwt-decode` internals are abstract. A token verifies iff it was signed with the configured secret and is unexpired. `hash` and `compare` are caller-supplied functions; the salt and cost factor 10 are folded into `hash`.
- The `Authorization` header is its first word and its second space-separated word read as a token. Other header shapes are not modelled.
- Mongoose and MongoDB are left out: casting a malformed id (`CastError` into `next(error)` in `deleteUser`/`deleteProduct`), the schema's `trim` on email, the role enum check, and timestamps. The exceptions of `User.findById` in `protect` are one boolean parameter.
- `searchProducts`' `$regex` matching is the caller-supplied `matches` relation. The input is treated as a pattern there, not a literal. A `name` query given more than once (an array) is not modelled.
- `orderController`, `dashboardController`, `multer`, `server.ts` and the route files are not part of this model. The routes shown never mount `protect` or `admin`; the middleware is modelled as written.
- The fetch effects of every page (loading the product and order lists, the products cache of the cart page, product images), `alert`, hover and dropdown toggling, and React's batching and ordering of state updates are not modelled.
- Item objects are modelled as values. The pages' `[...cart]` copies share the item objects, so `quantity += 1` also changes the previous state's item. This is visible only where the previous array is used again, such as React calling an updater twice in development mode. In the cart page it cannot show: without an email the cart is always empty.
- `localStorage` holds exactly the token and the carts. A stored cart is a well-formed JSON array of items. The `products` cache entry and corrupted stored JSON (which `JSON.parse` would throw on) are not modelled.
- Floating-point prices, `parseFloat`, `toFixed` and `encodeURIComponent` are left out. Prices are integer cents; parsing and encoding are parameters.
- The login, register, account and user pages, the dashboard and the presentation components are not part of this model. Their only decision logic is the token/role redirect modelled by `Browser.RoleGuard`.
- UserController.UserCollection.Register: the other failures that reach `next(error)` are not modelled: `findOne` or `save` failing for reasons other than validation and a duplicate id, and `bcrypt.hash` rejecting a missing password (request bodies here always carry both strings). The stored email is the email as sent, not the schema's trimmed copy.
- Browser.RoleGuard: the guards of the cart, product-edit and orders pages decode the payload with `atob`, which rejects the base64url characters `-` and `_` that `jwtDecode` accepts. A token whose payload encoding contains them sends those pages to `/login` with "Error decoding token.", while the model, which reads every payload through one `Decode`, lets it through.
- ProductController.ProductCollection.SearchProducts: the products collection is a map from id to document, so the order of the array that `res.json(products)` sends (MongoDB's natural order) is not modelled; the result is the set of matching documents.
- ProductController.ProductCollection.DeleteProduct: request ids are matched as the exact stored string. Mongoose casts a 24-hex id to an ObjectId regardless of the case of its hex digits, so the source also finds and deletes a stored product named by an upper-case spelling of its id, where the model answers 404.
- ProductController.ProductCollection.UpdateProduct: request ids are matched as the exact stored string. The id check accepts upper-case hex digits and `findByIdAndUpdate` casts them to the same ObjectId, so the source updates a stored product named by a differently cased spelling of its id, where the model answers 404.
- UserController.UserCollection.DeleteUser: request ids are matched as the exact stored string. `findByIdAndDelete` casts a 24-hex id to an ObjectId regardless of case, so the source deletes a stored user named by a differently cased spelling of its id, where the model answers 404.
