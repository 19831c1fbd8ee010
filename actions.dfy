/**
 * The server actions of the console: the credential check that sets the
 * session cookie, logout, and saving and deleting a product.
 */
module Actions {
  import opened Wrappers
  import opened Text
  import opened Catalog
  import Middleware

  /** What a server action hands back to its caller: `{ success: true }`,
      `{ error: code }`, or an exception it throws. */
  datatype ActionResult = Success | Error(code: string) | Threw(message: string)

  /** The configured EMAIL and PASS. */
  datatype Credentials = Credentials(email: string, password: string)

  /** The browser's `admin_auth` cookie. */
  class CookieJar {
    var adminAuth: Option<string>

    constructor (adminAuth: Option<string>)
      ensures this.adminAuth == adminAuth
    {
      this.adminAuth := adminAuth;
    }
  }

  const AuthCookieValue := "true"

  /** `email === ADMIN_EMAIL && password === ADMIN_PASS`: a missing field never matches,
      and a match pins both fields to the configured values. */
  predicate CredentialsMatch(admin: Credentials, email: Option<string>, password: Option<string>)
    ensures email.None? || password.None? ==> !CredentialsMatch(admin, email, password)
    ensures CredentialsMatch(admin, email, password) ==> email.value == admin.email && password.value == admin.password
  {
    email == Some(admin.email) && password == Some(admin.password)
  }

  method Login(jar: CookieJar, admin: Credentials, email: Option<string>, password: Option<string>)
    returns (location: string)
    modifies jar
    ensures CredentialsMatch(admin, email, password) ==>
      jar.adminAuth == Some(AuthCookieValue) && location == Middleware.HomePath
    ensures !CredentialsMatch(admin, email, password) ==>
      jar.adminAuth == old(jar.adminAuth) && location == "/login?error=invalid"
  {
    if email == Some(admin.email) && password == Some(admin.password) {
      jar.adminAuth := Some(AuthCookieValue);
      location := Middleware.HomePath;
    } else {
      location := "/login?error=invalid";
    }
  }

  method Logout(jar: CookieJar) returns (location: string)
    modifies jar
    ensures jar.adminAuth == None && location == Middleware.LoginPath
  {
    jar.adminAuth := None;
    location := Middleware.LoginPath;
  }

  /** The cookie login sets is the one the gate accepts; the state logout leaves is one it refuses. */
  lemma SessionCookieMatchesGate(path: string)
    requires Middleware.IsProtected(path) && path != Middleware.LoginPath
    ensures Middleware.Gate(path, Some(AuthCookieValue)) == Middleware.Next
    ensures Middleware.Gate(path, None) == Middleware.Redirect(Middleware.LoginPath)
    ensures Middleware.Gate(Middleware.LoginPath, Some(AuthCookieValue)) == Middleware.Redirect(Middleware.HomePath)
  {
  }

  /** The product form as submitted. Numeric fields hold what parseFloat / parseInt
      make of the text, None standing for NaN (an absent or unparsable field). */
  datatype ProductForm = ProductForm(
    id: Option<string>,
    image: Option<string>,
    imagesJson: Option<string>,
    featuresJson: Option<string>,
    title: Option<string>,
    category: Option<string>,
    description: Option<string>,
    price: Option<real>,
    originalPrice: Option<real>,
    rating: Option<real>,
    reviews: Option<int>,
    inStock: Option<string>,
    fastDelivery: Option<string>)

  /** A JavaScript truthy string: present and non-empty. */
  predicate IsTruthy(s: Option<string>) {
    s.Some? && s.value != ""
  }

  /** `!imageUrl || imageUrl.trim() === ""` fails. */
  predicate HasImage(form: ProductForm)
    ensures HasImage(form) <==>
      form.image.Some? && exists i :: 0 <= i < |form.image.value| && !IsSpace(form.image.value[i])
  {
    form.image.Some? && !IsBlank(form.image.value)
  }

  /** `parsed || default`: NaN and 0 are both falsy. */
  function OrDefault(parsed: Option<real>, default: real): (r: real)
    ensures parsed.Some? && parsed.value != 0.0 ==> r == parsed.value
    ensures parsed.None? || parsed.value == 0.0 ==> r == default
  {
    if parsed.Some? && parsed.value != 0.0 then parsed.value else default
  }

  function IntOrDefault(parsed: Option<int>, default: int): (r: int)
    ensures parsed.Some? && parsed.value != 0 ==> r == parsed.value
    ensures parsed.None? || parsed.value == 0 ==> r == default
  {
    if parsed.Some? && parsed.value != 0 then parsed.value else default
  }

  /** `json ? JSON.parse(json) : []`; parseJson yields None where JSON.parse throws. */
  function JsonList(raw: Option<string>, parseJson: string -> Option<seq<string>>): (r: Option<seq<string>>)
    ensures !IsTruthy(raw) ==> r == Some([])
    ensures IsTruthy(raw) ==> r == parseJson(raw.value)
  {
    if IsTruthy(raw) then parseJson(raw.value) else Some([])
  }

  /** The record saveProduct writes; None when parsing the gallery or feature list throws. */
  function ProductData(form: ProductForm, parseJson: string -> Option<seq<string>>): (r: Option<ProductFields>)
    requires HasImage(form)
    ensures r.None? <==> JsonList(form.imagesJson, parseJson).None? || JsonList(form.featuresJson, parseJson).None?
    ensures r.Some? ==> r.value.imageUrl == form.image.value
    ensures r.Some? ==> (r.value.price == 0.0 <==> form.price.None? || form.price.value == 0.0)
    ensures r.Some? && form.price.Some? && form.price.value != 0.0 ==> r.value.price == form.price.value
    ensures r.Some? ==> (r.value.originalPrice == 0.0 <==> form.originalPrice.None? || form.originalPrice.value == 0.0)
    ensures r.Some? && form.originalPrice.Some? && form.originalPrice.value != 0.0 ==>
      r.value.originalPrice == form.originalPrice.value
    ensures r.Some? ==> r.value.rating != 0.0
    ensures r.Some? && (form.rating.None? || form.rating == Some(0.0)) ==> r.value.rating == 5.0
    ensures r.Some? && form.rating.Some? && form.rating.value != 0.0 ==> r.value.rating == form.rating.value
    ensures r.Some? ==> (r.value.reviews == 0 <==> form.reviews.None? || form.reviews.value == 0)
    ensures r.Some? && form.reviews.Some? && form.reviews.value != 0 ==> r.value.reviews == form.reviews.value
    ensures r.Some? ==> (r.value.inStock <==> form.inStock == Some("on"))
    ensures r.Some? ==> (r.value.fastDelivery <==> form.fastDelivery == Some("on"))
    ensures r.Some? && !IsTruthy(form.imagesJson) ==> r.value.images == []
    ensures r.Some? && !IsTruthy(form.featuresJson) ==> r.value.features == []
    ensures r.Some? && IsTruthy(form.imagesJson) ==> parseJson(form.imagesJson.value) == Some(r.value.images)
    ensures r.Some? && IsTruthy(form.featuresJson) ==> parseJson(form.featuresJson.value) == Some(r.value.features)
    ensures r.Some? ==> r.value.title == form.title && r.value.categoryId == form.category
    ensures r.Some? ==> r.value.description == form.description
  {
    var images := JsonList(form.imagesJson, parseJson);
    var features := JsonList(form.featuresJson, parseJson);
    if images.None? || features.None? then None
    else
      Some(ProductFields(
        title := form.title,
        categoryId := form.category,
        price := OrDefault(form.price, 0.0),
        originalPrice := OrDefault(form.originalPrice, 0.0),
        imageUrl := form.image.value,
        images := images.value,
        features := features.value,
        description := form.description,
        inStock := form.inStock == Some("on"),
        fastDelivery := form.fastDelivery == Some("on"),
        rating := OrDefault(form.rating, 5.0),
        reviews := IntOrDefault(form.reviews, 0)))
  }

  /** A freshly inserted product row: the columns not written take the store's defaults. */
  function NewProduct(id: string, f: ProductFields): (p: Product)
    ensures p.id == id && p.fields == f && !p.hasSizes && p.sizeVariants == [] && p.createdAt.None?
  {
    Product(id, f, false, [], None)
  }

  method SaveProduct(db: ProductTable, form: ProductForm, parseJson: string -> Option<seq<string>>)
    returns (result: ActionResult)
    modifies db
    ensures !HasImage(form) ==> result == Error("missing_image") && db.rows == old(db.rows)
    ensures HasImage(form) && ProductData(form, parseJson).None? ==> result.Threw? && db.rows == old(db.rows)
    ensures HasImage(form) && ProductData(form, parseJson).Some? && IsTruthy(form.id) ==>
      result == Success &&
      db.rows == Updated(old(db.rows), db.refused, form.id.value, ProductData(form, parseJson).value)
    ensures HasImage(form) && ProductData(form, parseJson).Some? && !IsTruthy(form.id) ==>
      result == Success &&
      exists newId :: newId !in old(db.rows) &&
        db.rows == Inserted(old(db.rows), db.refused, NewProduct(newId, ProductData(form, parseJson).value))
  {
    if form.image.None? || IsBlank(form.image.value) {
      return Error("missing_image");
    }
    var data := ProductData(form, parseJson);
    if data.None? {
      return Threw("invalid JSON");
    }
    if form.id.Some? && form.id.value != "" {
      var _ := db.Update(form.id.value, data.value);
    } else {
      FreshKeyExists(db.rows.Keys);
      var newId :| newId !in db.rows;
      var _ := db.Insert(NewProduct(newId, data.value));
    }
    result := Success;
  }

  method DeleteProduct(db: ProductTable, id: Option<string>) returns (result: ActionResult)
    modifies db
    ensures !IsTruthy(id) ==> result == Threw("Product ID is required") && db.rows == old(db.rows)
    ensures IsTruthy(id) ==> result == Success && db.rows == Deleted(old(db.rows), db.refused, id.value)
  {
    if id.None? || id.value == "" {
      return Threw("Product ID is required");
    }
    var _ := db.Delete(id.value);
    result := Success;
  }

  /** A save writes at most one row: every other product is left as it was. */
  lemma SaveTouchesOneRow(rows: Rows, refused: set<Request>, form: ProductForm,
                          parseJson: string -> Option<seq<string>>, newId: string)
    requires HasImage(form) && ProductData(form, parseJson).Some?
    requires newId !in rows
    ensures var data := ProductData(form, parseJson).value;
      var after := if IsTruthy(form.id) then Updated(rows, refused, form.id.value, data)
                   else Inserted(rows, refused, NewProduct(newId, data));
      var key := if IsTruthy(form.id) then form.id.value else newId;
      forall k :: k != key ==> (k in after <==> k in rows) && (k in rows ==> after[k] == rows[k])
  {
  }
}
