/** The documents of the backend's collections (backend/src/models), as values,
    and the single-document lookups the controllers and the middleware make. */
module Models {
  import opened Wrappers
  import opened Lists

  /** The schema's `role` enum: `'user' | 'admin'`, default `'user'`. */
  datatype Role = UserRole | AdminRole {
    function Name(): string
    {
      match this
      case UserRole => "user"
      case AdminRole => "admin"
    }
  }

  /** A user document; `password` holds the stored hash. */
  datatype UserRecord = UserRecord(id: string, email: string, password: string, role: Role)

  /** A user document loaded with `select("-password")`. */
  datatype Identity = Identity(id: string, email: string, role: Role)

  function WithoutPassword(u: UserRecord): Identity
  {
    Identity(u.id, u.email, u.role)
  }

  function UserId(u: UserRecord): string { u.id }
  function UserEmail(u: UserRecord): string { u.email }

  /** The users collection in natural order keeps `_id` unique and, through the
      schema's unique index, `email` too. */
  ghost predicate ValidUsers(docs: seq<UserRecord>)
  {
    KeysDistinct(docs, UserId) && KeysDistinct(docs, UserEmail)
  }

  /** `User.findOne({ email })`: the first document with that email. */
  function FindByEmail(docs: seq<UserRecord>, email: string): (r: Option<UserRecord>)
    ensures r.None? <==> forall j :: 0 <= j < |docs| ==> docs[j].email != email
    ensures r.Some? ==> r.value in docs && r.value.email == email
  {
    var i := IndexOfKey(docs, UserEmail, email);
    if i == -1 then None else Some(docs[i])
  }

  /** `User.findById(id)`: the document with that `_id`. */
  function FindById(docs: seq<UserRecord>, id: string): (r: Option<UserRecord>)
    ensures r.None? <==> forall j :: 0 <= j < |docs| ==> docs[j].id != id
    ensures r.Some? ==> r.value in docs && r.value.id == id
  {
    var i := IndexOfKey(docs, UserId, id);
    if i == -1 then None else Some(docs[i])
  }

  /** `docs.save()` of a new document appends it; when its email was not taken,
      `findOne` by that email now finds exactly the new document. */
  lemma {:induction false} FindAppendedByEmail(docs: seq<UserRecord>, u: UserRecord)
    requires FindByEmail(docs, u.email).None?
    ensures FindByEmail(docs + [u], u.email) == Some(u)
  {
    var s := docs + [u];
    assert s[|docs|] == u;
    assert forall j :: 0 <= j < |docs| ==> s[j] == docs[j];
    var i := IndexOfKey(s, UserEmail, u.email);
    assert i == |docs|;
  }

  /** A product document; the price is in integer cents. */
  datatype Product = Product(id: string, name: string, price: int, description: string,
                             category: string, inStock: bool, image: string)
}
