/** The admin's product management page (src/pages/ProductEditPage.tsx): a
    guard that admits role "admin" only, the product list with delete and
    stock toggles, and the form that posts a new product. Each handler runs
    after its request; whether the request succeeded is a parameter. */
module ProductEdit {
  import opened Wrappers
  import opened AuthHelper
  import opened Lists
  import opened Browser
  import opened Models
  import ProductController

  /** The form state; `price` and `inStock` are the strings the inputs hold. */
  datatype ProductForm = ProductForm(name: string, price: string, category: string, inStock: string,
                                     description: string, image: Option<ProductController.Upload>)

  /** The reset form: empty fields, "In stock" selected, no image. */
  const EmptyForm := ProductForm("", "", "", "true", "", None)

  /** The multipart body posted to `/products`; `inStock` is `inStock.toString()`. */
  datatype ProductSubmission = ProductSubmission(name: string, price: int, category: string, inStock: string,
                                                 description: string, image: ProductController.Upload)

  const FieldsRequired := "All fields are required and must be valid."

  function ProductId(p: Product): string { p.id }

  /** `String(b)`. */
  function BoolText(b: bool): string
  {
    if b then "true" else "false"
  }

  /** The client-side check: every text field filled in, an image chosen and
      a price that parses (`parseFloat` in cents is `price`, None for NaN). */
  predicate FormValid(form: ProductForm, price: Option<int>)
  {
    form.name != "" && price.Some? && form.category != "" && form.description != "" && form.image.Some?
  }

  class ProductEditState {
    var products: seq<Product>
    var newProduct: ProductForm
    var imagePreview: Option<string>
    var errorMessage: string
    var navigatedTo: Option<string>

    /** Mounting: empty list and form, then the guard for role "admin". */
    constructor (userToken: Option<Jwt>)
      ensures products == [] && newProduct == EmptyForm && imagePreview.None?
      ensures var g := RoleGuard(userToken, "admin");
        && navigatedTo == (if g.Redirect? then Some(g.to) else None)
        && errorMessage == (if g.Redirect? && g.error.Some? then g.error.value else "")
    {
      products, newProduct, imagePreview := [], EmptyForm, None;
      var g := RoleGuard(userToken, "admin");
      navigatedTo := if g.Redirect? then Some(g.to) else None;
      errorMessage := if g.Redirect? && g.error.Some? then g.error.value else "";
    }

    /** `handleDelete`: nothing unless confirmed; after a successful
        `DELETE`, every product with that id leaves the list. */
    method HandleDelete(productId: string, confirmed: bool, requestOk: bool)
      modifies this
      ensures newProduct == old(newProduct) && imagePreview == old(imagePreview) && navigatedTo == old(navigatedTo)
      ensures !confirmed ==> products == old(products) && errorMessage == old(errorMessage)
      ensures confirmed && requestOk ==>
        products == RemoveKey(old(products), ProductId, productId) && errorMessage == old(errorMessage)
      ensures confirmed && !requestOk ==> products == old(products) && errorMessage == "Error deleting product."
    {
      if !confirmed {
        return;
      }
      if requestOk {
        products := RemoveKey(products, ProductId, productId);
      } else {
        errorMessage := "Error deleting product.";
      }
    }

    /** `handleFileChange`: a chosen file becomes the form's image and its preview. */
    method HandleFileChange(file: Option<ProductController.Upload>, objectUrl: string)
      modifies this
      ensures products == old(products) && errorMessage == old(errorMessage) && navigatedTo == old(navigatedTo)
      ensures file.None? ==> newProduct == old(newProduct) && imagePreview == old(imagePreview)
      ensures file.Some? ==> newProduct == old(newProduct).(image := file) && imagePreview == Some(objectUrl)
    {
      if file.Some? {
        newProduct := newProduct.(image := file);
        imagePreview := Some(objectUrl);
      }
    }

    /** `handleAddProduct`. `parseFloat` is the parameter `parsePrice`;
        `response` is the product the server returned (None: the request
        failed). An invalid form sends nothing; a successful post appends the
        returned product and resets the form. */
    method HandleAddProduct(parsePrice: string -> Option<int>, response: Option<Product>)
      returns (sent: Option<ProductSubmission>)
      modifies this
      ensures navigatedTo == old(navigatedTo)
      ensures sent.Some? <==> FormValid(old(newProduct), parsePrice(old(newProduct).price))
      ensures !FormValid(old(newProduct), parsePrice(old(newProduct).price)) ==>
        products == old(products) && newProduct == old(newProduct) && imagePreview == old(imagePreview)
        && errorMessage == FieldsRequired
      ensures sent.Some? ==>
        var f := old(newProduct);
        && sent.value.name == f.name && sent.value.category == f.category && sent.value.description == f.description
        && Some(sent.value.price) == parsePrice(f.price) && Some(sent.value.image) == f.image
        && sent.value.inStock == BoolText(f.inStock == "true")
      ensures sent.Some? && response.Some? ==>
        products == old(products) + [response.value] && newProduct == EmptyForm && imagePreview.None? && errorMessage == ""
      ensures sent.Some? && response.None? ==>
        products == old(products) && newProduct == old(newProduct) && imagePreview == old(imagePreview)
        && errorMessage == "Error adding product."
    {
      var price := parsePrice(newProduct.price);
      var inStock := newProduct.inStock == "true";
      if newProduct.name == "" || price.None? || newProduct.category == "" || newProduct.description == "" || newProduct.image.None? {
        errorMessage := FieldsRequired;
        sent := None;
        return;
      }
      sent := Some(ProductSubmission(newProduct.name, price.value, newProduct.category, BoolText(inStock),
                                     newProduct.description, newProduct.image.value));
      if response.Some? {
        products := products + [response.value];
        newProduct := EmptyForm;
        imagePreview := None;
        errorMessage := "";
      } else {
        errorMessage := "Error adding product.";
      }
    }

    /** `handleStockChange`: after a successful `PUT`, the products with that
        id get `inStock = newStock`; every other field, the length and the
        order stay as they were. */
    method HandleStockChange(productId: string, newStock: bool, requestOk: bool)
      modifies this
      ensures newProduct == old(newProduct) && imagePreview == old(imagePreview) && navigatedTo == old(navigatedTo)
      ensures requestOk ==> errorMessage == old(errorMessage) && |products| == |old(products)|
      ensures requestOk ==> forall j :: 0 <= j < |products| ==>
        products[j] == if old(products)[j].id == productId then old(products)[j].(inStock := newStock) else old(products)[j]
      ensures !requestOk ==> products == old(products) && errorMessage == "Error updating stock status."
    {
      if requestOk {
        products := UpdateKey(products, ProductId, productId, (p: Product) => p.(inStock := newStock));
      } else {
        errorMessage := "Error updating stock status.";
      }
    }
  }

  /** A form the page accepts is saved by the server as entered: it passes
      the schema, and the `inStock` the server derives from the submitted
      text is the flag the form selected. */
  lemma SubmissionAccepted(form: ProductForm, price: Option<int>, freshId: string, protocol: string, host: string)
    requires FormValid(form, price)
    ensures var stored := Product(freshId, form.name, price.value, form.description, form.category,
                                  ProductController.JString(BoolText(form.inStock == "true")) == ProductController.JString("true"),
                                  ProductController.ImageUrl(protocol, host, form.image.value.filename));
      ProductController.PassesSchema(stored) && stored.inStock == (form.inStock == "true")
  {
    if form.inStock != "true" {
      assert BoolText(false)[0] != "true"[0];
    }
  }

  /** When the page's list mirrors the stored documents, it still does after
      a stock change that the server applied to the same product. */
  lemma StockChangeMirrorsServer(products: seq<Product>, docs: map<string, Product>, productId: string, newStock: bool)
    requires forall j :: 0 <= j < |products| && products[j].id in docs ==> docs[products[j].id] == products[j]
    requires productId in docs
    ensures var updated := UpdateKey(products, ProductId, productId, (p: Product) => p.(inStock := newStock));
      var after := docs[productId := docs[productId].(inStock := newStock)];
      forall j :: 0 <= j < |updated| && updated[j].id in after ==> after[updated[j].id] == updated[j]
  {
    var updated := UpdateKey(products, ProductId, productId, (p: Product) => p.(inStock := newStock));
    var after := docs[productId := docs[productId].(inStock := newStock)];
    forall j | 0 <= j < |updated| && updated[j].id in after
      ensures after[updated[j].id] == updated[j]
    {
      assert updated[j].id == products[j].id;
    }
  }
}
