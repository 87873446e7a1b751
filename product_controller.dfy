/** The product handlers of the backend (backend/src/controllers/productController.ts)
    over the products collection, a map from `_id` to document. */
module ProductController {
  import opened Wrappers
  import opened Models

  /** A value of the parsed request body, as far as `typeof` and `===` tell them apart. */
  datatype JsonValue = JMissing | JNull | JBool(b: bool) | JNumber(n: int) | JString(s: string) | JObject

  datatype Body = Message(text: string) | OneProduct(product: Product) | ProductList(products: map<string, Product>)

  /** What reaches Express's error handler through `next(error)`: the schema's
      validation on `save`, or a clash on the primary key. */
  datatype ServerError = ValidationFailed | DuplicateKey

  datatype Reply = Reply(status: int, body: Body) | Forwarded(error: ServerError)

  /** An uploaded file as multer leaves it on `req.file`. */
  datatype Upload = Upload(filename: string)

  predicate IsHexDigit(c: char)
  {
    '0' <= c <= '9' || 'a' <= c <= 'f' || 'A' <= c <= 'F'
  }

  function AllHex(s: string): (ok: bool)
    ensures ok <==> forall i :: 0 <= i < |s| ==> IsHexDigit(s[i])
  {
    s == [] || (IsHexDigit(s[0]) && AllHex(s[1..]))
  }

  /** `/^[0-9a-fA-F]{24}$/.test(id)`: exactly 24 characters, all hexadecimal digits. */
  function IsProductId(id: string): (ok: bool)
    ensures ok <==> |id| == 24 && forall i :: 0 <= i < |id| ==> IsHexDigit(id[i])
  {
    |id| == 24 && AllHex(id)
  }

  /** `${req.protocol}://${req.get("host")}/uploads/${req.file.filename}`. */
  function ImageUrl(protocol: string, host: string, filename: string): string
  {
    protocol + "://" + host + "/uploads/" + filename
  }

  /** The product schema's `required` string fields reject a missing or empty value. */
  predicate PassesSchema(p: Product)
  {
    p.name != "" && p.description != "" && p.category != ""
  }

  class ProductCollection {
    var docs: map<string, Product>

    ghost predicate Valid()
      reads this
    {
      forall k :: k in docs ==> docs[k].id == k
    }

    constructor ()
      ensures Valid() && docs == map[]
    {
      docs := map[];
    }

    /** `searchProducts`: with no `name` (absent or empty) every product;
        otherwise those whose name the search pattern matches. The regular
        expression's semantics is the parameter `matches`. */
    method SearchProducts(name: Option<string>, matches: (string, string) -> bool) returns (reply: Reply)
      ensures reply.Reply? && reply.status == 200 && reply.body.ProductList?
      ensures name.None? || name.value == "" ==> reply.body.products == docs
      ensures name.Some? && name.value != "" ==>
        forall k :: k in reply.body.products <==> k in docs && matches(docs[k].name, name.value)
      ensures forall k :: k in reply.body.products ==> k in docs && reply.body.products[k] == docs[k]
    {
      var products;
      if name.Some? && name.value != "" {
        products := map k | k in docs && matches(docs[k].name, name.value) :: docs[k];
      } else {
        products := docs;
      }
      reply := Reply(200, ProductList(products));
    }

    /** `deleteProduct`: absent id -> 404; otherwise exactly that product is removed. */
    method DeleteProduct(id: string) returns (reply: Reply)
      requires Valid()
      modifies this
      ensures Valid()
      ensures id !in old(docs) ==> reply == Reply(404, Message("Product not found")) && docs == old(docs)
      ensures id in old(docs) ==> reply == Reply(200, Message("Product deleted successfully")) && docs == old(docs) - {id}
    {
      if id !in docs {
        reply := Reply(404, Message("Product not found"));
        return;
      }
      docs := docs - {id};
      reply := Reply(200, Message("Product deleted successfully"));
    }

    /** `updateProduct`: the type of `inStock` is checked before the id, the
        id's shape before the lookup; on success only that product's `inStock`
        changes and the updated document is returned. */
    method UpdateProduct(id: string, inStock: JsonValue) returns (reply: Reply)
      requires Valid()
      modifies this
      ensures Valid()
      ensures !inStock.JBool? ==>
        reply == Reply(400, Message("Invalid inStock value must be booolean")) && docs == old(docs)
      ensures inStock.JBool? && !IsProductId(id) ==>
        reply == Reply(400, Message("Invalid product ID")) && docs == old(docs)
      ensures inStock.JBool? && IsProductId(id) && id !in old(docs) ==>
        reply == Reply(404, Message("Product not found")) && docs == old(docs)
      ensures inStock.JBool? && IsProductId(id) && id in old(docs) ==>
        && docs == old(docs)[id := old(docs)[id].(inStock := inStock.b)]
        && reply == Reply(200, OneProduct(docs[id]))
    {
      if !inStock.JBool? {
        reply := Reply(400, Message("Invalid inStock value must be booolean"));
        return;
      }
      if !IsProductId(id) {
        reply := Reply(400, Message("Invalid product ID"));
        return;
      }
      if id !in docs {
        reply := Reply(404, Message("Product not found"));
        return;
      }
      docs := docs[id := docs[id].(inStock := inStock.b)];
      reply := Reply(200, OneProduct(docs[id]));
    }

    /** `addProduct`: without an uploaded file -> 400 and nothing saved.
        Otherwise the document gets the upload's URL, `inStock` true exactly
        when the submitted value is the string "true", and is saved unless the
        schema rejects it. `price` is `parseFloat(price)` in cents, None for NaN. */
    method AddProduct(name: string, price: Option<int>, category: string, inStock: JsonValue, description: string,
                      file: Option<Upload>, protocol: string, host: string, freshId: string)
      returns (reply: Reply)
      requires Valid()
      modifies this
      ensures Valid()
      ensures file.None? ==> reply == Reply(400, Message("Image is required.")) && docs == old(docs)
      ensures file.Some? && price.Some? ==>
        var p := Product(freshId, name, price.value, description, category, inStock == JString("true"),
                         ImageUrl(protocol, host, file.value.filename));
        if !PassesSchema(p) then reply == Forwarded(ValidationFailed) && docs == old(docs)
        else if freshId in old(docs) then reply == Forwarded(DuplicateKey) && docs == old(docs)
        else reply == Reply(201, OneProduct(p)) && docs == old(docs)[freshId := p]
      ensures file.Some? && price.None? ==> reply == Forwarded(ValidationFailed) && docs == old(docs)
    {
      if file.None? {
        reply := Reply(400, Message("Image is required."));
        return;
      }
      var imageUrl := ImageUrl(protocol, host, file.value.filename);
      if price.None? {
        // Mongoose refuses to cast NaN to a Number
        reply := Forwarded(ValidationFailed);
        return;
      }
      var product := Product(freshId, name, price.value, description, category, inStock == JString("true"), imageUrl);
      if !PassesSchema(product) {
        reply := Forwarded(ValidationFailed);
        return;
      }
      if freshId in docs {
        reply := Forwarded(DuplicateKey);
        return;
      }
      docs := docs[freshId := product];
      reply := Reply(201, OneProduct(product));
    }
  }
}
