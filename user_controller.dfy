/** The credential service (backend/src/controllers/userController.ts):
    registration, login and deletion over the users collection. The salted
    one-way hash is an abstract function `hash` (its salt and cost factor 10
    are folded into it) and `bcrypt.compare` an abstract predicate `compare`.
    The `_id` Mongo generates for a new document is the parameter `freshId`. */
module UserController {
  import opened Wrappers
  import opened AuthHelper
  import opened Models
  import opened Lists
  import opened Text

  /** What reaches Express's error handler through `next(error)`. */
  datatype ServerError = TokenFailure(cause: TokenError) | ValidationFailed | DuplicateKey

  /** A JSON reply `{ message, token? }`, or an error passed to `next`. */
  datatype Reply = Json(status: int, message: string, token: Option<Jwt>) | Forwarded(error: ServerError)

  function TokenReply(r: Result<Jwt, TokenError>, status: int, message: string): Reply
  {
    match r
    case Success(t) => Json(status, message, Some(t))
    case Failure(e) => Forwarded(TokenFailure(e))
  }

  /** The claims `generateToken` is given for a stored user. */
  function ClaimsOf(u: UserRecord): Claims
  {
    Claims(u.id, Some(u.email), Some(u.role.Name()))
  }

  class UserCollection {
    var docs: seq<UserRecord>

    /** Ids and emails are unique, and every stored email passed the
        schema's `required` check after its `trim`. */
    ghost predicate Valid()
      reads this
    {
      ValidUsers(docs) && forall j :: 0 <= j < |docs| ==> !Blank(docs[j].email)
    }

    constructor ()
      ensures Valid() && docs == []
    {
      docs := [];
    }

    /** `registerUser`: duplicate email -> 400 and no change; an email that
        `trim` empties fails the schema's `required` check in `save()` and is
        forwarded; otherwise one new document with the hashed password and
        role 'user' is saved, and only then is the token generated (so a
        missing secret still leaves the user saved). */
    method Register(email: string, password: string, hash: string -> string, freshId: string, env: Env, nowMs: nat)
      returns (reply: Reply)
      requires Valid()
      modifies this
      ensures Valid()
      ensures FindByEmail(old(docs), email).Some? ==>
        reply == Json(400, "User already exists", None) && docs == old(docs)
      ensures FindByEmail(old(docs), email).None? && Blank(email) ==>
        reply == Forwarded(ValidationFailed) && docs == old(docs)
      ensures FindByEmail(old(docs), email).None? && !Blank(email) && FindById(old(docs), freshId).Some? ==>
        reply == Forwarded(DuplicateKey) && docs == old(docs)
      ensures FindByEmail(old(docs), email).None? && !Blank(email) && FindById(old(docs), freshId).None? ==>
        && docs == old(docs) + [UserRecord(freshId, email, hash(password), UserRole)]
        && reply == TokenReply(GenerateToken(env, Claims(freshId, Some(email), Some("user")), nowMs),
                               201, "User registered successfully")
    {
      var existing := FindByEmail(docs, email);
      if existing.Some? {
        reply := Json(400, "User already exists", None);
        return;
      }
      var hashedPassword := hash(password);
      var newUser := UserRecord(freshId, email, hashedPassword, UserRole);
      // save(): schema validation first, then the primary key must be new
      if Trim(email) == "" {
        reply := Forwarded(ValidationFailed);
        return;
      }
      if FindById(docs, freshId).Some? {
        reply := Forwarded(DuplicateKey);
        return;
      }
      AppendKeepsValid(docs, newUser);
      docs := docs + [newUser];
      reply := TokenReply(GenerateToken(env, ClaimsOf(newUser), nowMs), 201, "User registered successfully");
    }

    /** `loginUser`: unknown email -> 404, failing compare -> 401, otherwise
        200 with a token carrying the stored id, email and role. It reads the
        collection only. */
    method Login(email: string, password: string, compare: (string, string) -> bool, env: Env, nowMs: nat)
      returns (reply: Reply)
      ensures FindByEmail(docs, email).None? ==> reply == Json(404, "User not found", None)
      ensures FindByEmail(docs, email).Some? && !compare(password, FindByEmail(docs, email).value.password) ==>
        reply == Json(401, "Invalid email or password", None)
      ensures FindByEmail(docs, email).Some? && compare(password, FindByEmail(docs, email).value.password) ==>
        reply == TokenReply(GenerateToken(env, ClaimsOf(FindByEmail(docs, email).value), nowMs), 200, "Login successful")
    {
      var user := FindByEmail(docs, email);
      if user.None? {
        reply := Json(404, "User not found", None);
        return;
      }
      var isMatch := compare(password, user.value.password);
      if !isMatch {
        reply := Json(401, "Invalid email or password", None);
        return;
      }
      reply := TokenReply(GenerateToken(env, ClaimsOf(user.value), nowMs), 200, "Login successful");
    }

    /** `deleteUser`: absent id -> 404; otherwise exactly that user is removed. */
    method DeleteUser(id: string) returns (reply: Reply)
      requires Valid()
      modifies this
      ensures Valid()
      ensures FindById(old(docs), id).None? ==> reply == Json(404, "User not found.", None) && docs == old(docs)
      ensures FindById(old(docs), id).Some? ==>
        && reply == Json(200, "User deleted.", None)
        && docs == RemoveKey(old(docs), UserId, id)
        && |docs| == |old(docs)| - 1
        && (forall u :: u in docs <==> u in old(docs) && u.id != id)
    {
      var i := IndexOfKey(docs, UserId, id);
      if i == -1 {
        reply := Json(404, "User not found.", None);
        return;
      }
      RemoveUniqueKey(docs, UserId, i);
      RemoveKeyMembers(docs, UserId, id);
      RemoveKeyKeepsDistinct(docs, UserId, id);
      RemoveKeyKeepsDistinct(docs, UserEmail, id);
      DeleteKeepsValid(docs, i);
      docs := RemoveKey(docs, UserId, id);
      reply := Json(200, "User deleted.", None);
    }
  }

  /** A new document whose id and email are both unused keeps the collection valid. */
  lemma AppendKeepsValid(docs: seq<UserRecord>, u: UserRecord)
    requires ValidUsers(docs)
    requires FindByEmail(docs, u.email).None? && FindById(docs, u.id).None?
    ensures ValidUsers(docs + [u])
  {
    var s := docs + [u];
    forall i, j | 0 <= i < j < |s| ensures UserId(s[i]) != UserId(s[j]) && UserEmail(s[i]) != UserEmail(s[j]) {
      if j < |docs| {
        assert s[i] == docs[i] && s[j] == docs[j];
      } else {
        assert s[i] == docs[i] && s[j] == u;
      }
    }
  }

  /** Deleting the document at index `i` keeps the collection valid. */
  lemma DeleteKeepsValid(docs: seq<UserRecord>, i: int)
    requires ValidUsers(docs)
    requires 0 <= i < |docs|
    ensures ValidUsers(docs[..i] + docs[i + 1..])
  {
    var s := docs[..i] + docs[i + 1..];
    forall a, b | 0 <= a < b < |s| ensures UserId(s[a]) != UserId(s[b]) && UserEmail(s[a]) != UserEmail(s[b]) {
      var a', b' := if a < i then a else a + 1, if b < i then b else b + 1;
      assert s[a] == docs[a'] && s[b] == docs[b'] && a' < b';
    }
  }

  /** The registration scenario: register a new pair (201), log in with it
      (200, a token whose role claim is "user"), and register the same email
      again (400). Login succeeds because `compare(p, hash(p))` holds. */
  method RegisterThenLogin(users: UserCollection, email: string, password: string,
                           hash: string -> string, compare: (string, string) -> bool,
                           freshId: string, otherId: string, env: Env, nowMs: nat)
    returns (registered: Reply, loggedIn: Reply, again: Reply)
    requires users.Valid()
    requires forall p :: compare(p, hash(p))
    requires FindByEmail(users.docs, email).None? && FindById(users.docs, freshId).None?
    requires !Blank(email)
    requires IsSet(env.jwtSecret)
    modifies users
    ensures users.Valid() && users.docs == old(users.docs) + [UserRecord(freshId, email, hash(password), UserRole)]
    ensures registered.Json? && registered.status == 201
    ensures loggedIn.Json? && loggedIn.status == 200 && loggedIn.token.Some?
    ensures VerifyToken(env, loggedIn.token.value, nowMs).Success?
    ensures VerifyToken(env, loggedIn.token.value, nowMs).value.claims == Claims(freshId, Some(email), Some("user"))
    ensures again == Json(400, "User already exists", None)
  {
    registered := users.Register(email, password, hash, freshId, env, nowMs);
    FindAppendedByEmail(old(users.docs), UserRecord(freshId, email, hash(password), UserRole));
    loggedIn := users.Login(email, password, compare, env, nowMs);
    again := users.Register(email, password, hash, otherId, env, nowMs);
  }
}
