/** The product admin actions (src/app/admin/products/actions.ts): the slug
    derived from a product name, and the required-field and session guards of
    createProduct, updateProduct and deleteProduct. */
module ProductAdmin {
  import opened Types

  // ---------------------------------------------------------------------------
  // Slug derivation: lower-case, spaces to dashes, drop non-word characters

  /** `toLowerCase` on ASCII letters; every other character is left as is. */
  function LowerChar(c: char): (r: char)
    ensures 'A' <= c <= 'Z' ==> 'a' <= r <= 'z'
    ensures !('A' <= c <= 'Z') ==> r == c
  {
    if 'A' <= c <= 'Z' then (c as int - 'A' as int + 'a' as int) as char else c
  }

  function Lower(s: string): (r: string)
    ensures |r| == |s|
    ensures forall i :: 0 <= i < |s| ==> r[i] == LowerChar(s[i])
  {
    if |s| == 0 then "" else [LowerChar(s[0])] + Lower(s[1..])
  }

  /** `replace(/ /g, '-')`: only the space character itself. */
  function SpacesToDashes(s: string): (r: string)
    ensures |r| == |s|
    ensures forall i :: 0 <= i < |s| ==> r[i] == (if s[i] == ' ' then '-' else s[i])
  {
    if |s| == 0 then "" else [if s[0] == ' ' then '-' else s[0]] + SpacesToDashes(s[1..])
  }

  /** A character the pattern `[^\w-]` does not match: an ASCII letter or
      digit, `_` or `-`. */
  predicate IsWordOrDash(c: char)
  {
    'a' <= c <= 'z' || 'A' <= c <= 'Z' || '0' <= c <= '9' || c == '_' || c == '-'
  }

  /** `replace(/[^\w-]+/g, '')`: every other character is dropped. */
  function DropNonWord(s: string): (r: string)
    ensures |r| <= |s|
    ensures forall c :: c in r <==> c in s && IsWordOrDash(c)
  {
    if |s| == 0 then ""
    else (if IsWordOrDash(s[0]) then [s[0]] else "") + DropNonWord(s[1..])
  }

  /** A character a slug may hold: lower-case ASCII letter, digit, `_` or `-`. */
  predicate IsSlugChar(c: char)
  {
    'a' <= c <= 'z' || '0' <= c <= '9' || c == '_' || c == '-'
  }

  /** `name.toLowerCase().replace(/ /g, '-').replace(/[^\w-]+/g, '')`. */
  function Slug(name: string): (r: string)
    ensures |r| <= |name|
    ensures forall c :: c in r ==> IsWordOrDash(c) && !('A' <= c <= 'Z')
  {
    DropNonWord(SpacesToDashes(Lower(name)))
  }

  /** A slug holds only `[a-z0-9_-]` (so no space) and is no longer than the name. */
  lemma SlugShape(name: string)
    ensures |Slug(name)| <= |name|
    ensures forall c :: c in Slug(name) ==> IsSlugChar(c)
  {
    var l := Lower(name);
    var d := SpacesToDashes(l);
    forall c | c in Slug(name) ensures IsSlugChar(c) {
      assert c in d && IsWordOrDash(c);
      var i :| 0 <= i < |d| && d[i] == c;
      assert l[i] == LowerChar(name[i]);
    }
  }

  /** Each step leaves a string of slug characters as it is. */
  lemma {:induction false} LowerFixes(s: string)
    requires forall c :: c in s ==> IsSlugChar(c)
    ensures Lower(s) == s
  {
    if |s| > 0 {
      assert s[0] in s;
      assert forall c :: c in s[1..] ==> c in s;
      LowerFixes(s[1..]);
    }
  }

  lemma {:induction false} DashesFix(s: string)
    requires forall c :: c in s ==> IsSlugChar(c)
    ensures SpacesToDashes(s) == s
  {
    if |s| > 0 {
      assert s[0] in s;
      assert forall c :: c in s[1..] ==> c in s;
      DashesFix(s[1..]);
    }
  }

  lemma {:induction false} DropFixes(s: string)
    requires forall c :: c in s ==> IsSlugChar(c)
    ensures DropNonWord(s) == s
  {
    if |s| > 0 {
      assert s[0] in s;
      assert forall c :: c in s[1..] ==> c in s;
      DropFixes(s[1..]);
    }
  }

  /** A name that is already made of slug characters is its own slug. */
  lemma SlugFixedPoint(name: string)
    requires forall c :: c in name ==> IsSlugChar(c)
    ensures Slug(name) == name
  {
    LowerFixes(name);
    DashesFix(name);
    DropFixes(name);
  }

  /** Slugging a slug changes nothing. */
  lemma SlugIdempotent(name: string)
    ensures Slug(Slug(name)) == Slug(name)
  {
    SlugShape(name);
    SlugFixedPoint(Slug(name));
  }

  /** Dropping characters distributes over concatenation. */
  lemma {:induction false} DropConcat(a: string, b: string)
    ensures DropNonWord(a + b) == DropNonWord(a) + DropNonWord(b)
  {
    if |a| == 0 {
      assert a + b == b;
    } else {
      assert (a + b)[1..] == a[1..] + b;
      DropConcat(a[1..], b);
    }
  }

  // ---------------------------------------------------------------------------
  // Guards

  /** The form fields as read from the request. Strings are `None` when the
      field is absent; `price` and `stock` are `None` when they do not parse
      as numbers (NaN). */
  datatype ProductForm = ProductForm(
    id: Option<string>,
    name: Option<string>,
    description: Option<string>,
    price: Option<int>,
    stock: Option<int>,
    categoryId: Option<string>)

  /** The image step: no file (or an empty one), an upload with its public
      URL, or a failed upload. */
  datatype ImageUpload = NoImage | Uploaded(url: string) | UploadFailed

  datatype AdminError = Unauthorized | MissingFields | ImageUploadFailed | DatabaseFailed

  /** JavaScript truthiness of a string and of a number. */
  predicate Truthy(s: Option<string>)
  {
    s.Some? && s.value != ""
  }

  predicate TruthyNumber(n: Option<int>)
  {
    n.Some? && n.value != 0
  }

  /** The row createProduct inserts (ids and timestamps come from the database). */
  datatype NewProduct = NewProduct(
    name: string, slug: string, description: Option<string>, price: int,
    stock: Option<int>, categoryId: string, imageUrl: Option<string>)

  /** createProduct up to the insert: the session, then `name`, `price` and
      `category_id` must be truthy (so a price of 0 is refused), then the
      image upload; the row carries the slug of the name. */
  function CreateProduct(user: Option<UserId>, form: ProductForm, image: ImageUpload): (r: Result<NewProduct, AdminError>)
    ensures user.None? ==> r == Err(Unauthorized)
    ensures user.Some? && !(Truthy(form.name) && TruthyNumber(form.price) && Truthy(form.categoryId)) ==>
      r == Err(MissingFields)
    ensures r.Ok? <==>
      user.Some? && Truthy(form.name) && TruthyNumber(form.price) && Truthy(form.categoryId) && !image.UploadFailed?
    ensures r.Ok? ==>
      && r.value.name == form.name.value && r.value.slug == Slug(form.name.value)
      && r.value.price == form.price.value && r.value.price != 0
      && r.value.categoryId == form.categoryId.value && r.value.stock == form.stock
      && r.value.description == form.description
      && r.value.imageUrl == (if image.Uploaded? then Some(image.url) else None)
  {
    if user.None? then Err(Unauthorized)
    else if !(Truthy(form.name) && TruthyNumber(form.price) && Truthy(form.categoryId)) then Err(MissingFields)
    else if image.UploadFailed? then Err(ImageUploadFailed)
    else
      Ok(NewProduct(form.name.value, Slug(form.name.value), form.description, form.price.value,
                    form.stock, form.categoryId.value, if image.Uploaded? then Some(image.url) else None))
  }

  /** The product created from a form has a well-formed slug. */
  lemma CreatedSlugIsWellFormed(user: Option<UserId>, form: ProductForm, image: ImageUpload)
    requires CreateProduct(user, form, image).Ok?
    ensures var p := CreateProduct(user, form, image).value;
      |p.slug| <= |p.name| && forall c :: c in p.slug ==> IsSlugChar(c)
  {
    SlugShape(form.name.value);
  }

  /** The `updates` record of updateProduct: the form's fields and a fresh
      `updated_at`, plus the image URL when one was uploaded. It has no slug. */
  datatype ProductUpdate = ProductUpdate(
    id: ProductId, name: string, description: Option<string>, price: Option<int>,
    stock: Option<int>, categoryId: Option<string>, updatedAt: string, imageUrl: Option<string>)

  /** updateProduct up to the update call: the session, then `id` and `name`
      must be truthy, then the image upload. `now` is the current time. */
  function UpdateRecord(user: Option<UserId>, form: ProductForm, image: ImageUpload, now: string): (r: Result<ProductUpdate, AdminError>)
    ensures user.None? ==> r == Err(Unauthorized)
    ensures user.Some? && !(Truthy(form.id) && Truthy(form.name)) ==> r == Err(MissingFields)
    ensures r.Ok? <==> user.Some? && Truthy(form.id) && Truthy(form.name) && !image.UploadFailed?
    ensures r.Ok? ==> r.value.id == form.id.value && r.value.name == form.name.value && r.value.updatedAt == now
    ensures r.Ok? ==> && r.value.description == form.description && r.value.price == form.price
                      && r.value.stock == form.stock && r.value.categoryId == form.categoryId
    ensures r.Ok? ==> (r.value.imageUrl.Some? <==> image.Uploaded?)
    ensures r.Ok? && image.Uploaded? ==> r.value.imageUrl == Some(image.url)
  {
    if user.None? then Err(Unauthorized)
    else if !(Truthy(form.id) && Truthy(form.name)) then Err(MissingFields)
    else if image.UploadFailed? then Err(ImageUploadFailed)
    else
      Ok(ProductUpdate(form.id.value, form.name.value, form.description, form.price, form.stock,
                       form.categoryId, now, if image.Uploaded? then Some(image.url) else None))
  }

  /** The products table after `update(updates).eq('id', id)`. A price, stock
      or category that is null (not a number, or absent) is refused by the
      table's non-nullable columns; an id matching no row changes nothing. */
  function ApplyUpdate(products: map<ProductId, Product>, u: ProductUpdate): (r: Result<map<ProductId, Product>, AdminError>)
    ensures u.price.None? || u.stock.None? || u.categoryId.None? ==> r == Err(DatabaseFailed)
    ensures r.Ok? ==> r.value.Keys == products.Keys
    ensures r.Ok? ==> forall k :: k in products && k != u.id ==> r.value[k] == products[k]
    ensures r.Ok? && u.id in products ==>
      var p, q := products[u.id], r.value[u.id];
      && q.name == u.name && q.price == u.price.value && q.stock == u.stock.value
      && q.categoryId == u.categoryId.value && q.updatedAt == u.updatedAt
      && q.description == u.description
      && q.imageUrl == (if u.imageUrl.Some? then u.imageUrl else p.imageUrl)
      && q.id == p.id && q.slug == p.slug && q.createdAt == p.createdAt && q.isDeleted == p.isDeleted
  {
    if u.price.None? || u.stock.None? || u.categoryId.None? then Err(DatabaseFailed)
    else if u.id !in products then Ok(products)
    else
      var p := products[u.id];
      Ok(products[u.id := p.(name := u.name, description := u.description, price := u.price.value,
                             stock := u.stock.value, categoryId := u.categoryId.value, updatedAt := u.updatedAt,
                             imageUrl := if u.imageUrl.Some? then u.imageUrl else p.imageUrl)])
  }

  /** deleteProduct: without a session nothing is deleted; otherwise the row
      with that id is removed (unless the delete itself fails). */
  function DeleteProduct(hasSession: bool, products: map<ProductId, Product>, id: ProductId, deleteFails: bool): (r: Result<map<ProductId, Product>, AdminError>)
    ensures !hasSession ==> r == Err(Unauthorized)
    ensures r.Ok? <==> hasSession && !deleteFails
    ensures r.Ok? ==> r.value.Keys == products.Keys - {id}
    ensures r.Ok? ==> forall k :: k in r.value ==> r.value[k] == products[k]
  {
    if !hasSession then Err(Unauthorized)
    else if deleteFails then Err(DatabaseFailed)
    else Ok(products - {id})
  }
}
