/** The product routes: the listing with each product's category name
    (app/api/product/list/route.js) and adding a product from a submitted
    form (app/api/product/add/route.js). Image upload is left to the
    caller: a form carries the URLs the upload produced. */
module Products {
  import opened Common
  import opened Catalog
  import opened Categories

  // ---------------------------------------------------------------------------
  // Listing

  /** `{_id, name}` the listing puts in place of the category id. */
  datatype CategoryRef = CategoryRef(id: string, name: string)

  datatype ListedProduct = ListedProduct(product: Product, category: CategoryRef)

  /** `categoryMap[categoryId] || 'Uncategorized'`. */
  function CategoryRefFor(categoryMap: map<string, string>, categoryId: string): (c: CategoryRef)
    ensures c.id == categoryId
    ensures categoryId in categoryMap && categoryMap[categoryId] != "" ==> c.name == categoryMap[categoryId]
    ensures categoryId !in categoryMap || categoryMap[categoryId] == "" ==> c.name == "Uncategorized"
  {
    CategoryRef(categoryId, if categoryId in categoryMap && categoryMap[categoryId] != "" then categoryMap[categoryId] else "Uncategorized")
  }

  function WithCategories(products: seq<Product>, categoryMap: map<string, string>): (r: seq<ListedProduct>)
    ensures |r| == |products|
    ensures forall k :: 0 <= k < |r| ==>
      r[k] == ListedProduct(products[k], CategoryRefFor(categoryMap, products[k].category))
  {
    if products == [] then []
    else [ListedProduct(products[0], CategoryRefFor(categoryMap, products[0].category))] +
         WithCategories(products[1..], categoryMap)
  }

  /** GET /api/product/list: the products in the order the store returns
      them (newest first), each with its category's id and name. */
  method ListProducts(products: seq<Product>, cats: seq<Category>) returns (data: seq<ListedProduct>)
    ensures |data| == |products|
    ensures forall k :: 0 <= k < |data| ==> data[k].product == products[k]
    ensures forall k :: 0 <= k < |data| ==> data[k].category.id == products[k].category
    ensures forall k :: 0 <= k < |data| ==>
      data[k].category.name == OrElse(NameFor(cats, products[k].category), "Uncategorized")
  {
    var categoryMap := BuildCategoryMap(cats);
    data := WithCategories(products, categoryMap);
  }

  /** With unique category ids, a product whose category exists is listed
      under that category's own name. */
  lemma ListedUnderOwnCategory(p: Product, cats: seq<Category>, k: nat)
    requires UniqueIds(cats) && k < |cats| && cats[k].id == p.category && cats[k].name != ""
    ensures OrElse(NameFor(cats, p.category), "Uncategorized") == cats[k].name
  {
    NameForIsOwnName(cats, k);
  }

  // ---------------------------------------------------------------------------
  // Adding a product

  /** A numeric form field: absent, the empty string, text that `Number`
      reads as a value, or text it reads as NaN. */
  datatype FormNumber = Absent | Blank | Numeric(value: real) | NotNumeric

  /** A form field that JavaScript treats as true: any non-empty text. */
  predicate Given(n: FormNumber) {
    n.Numeric? || n.NotNumeric?
  }

  /** `!price || Number(price) <= 0`: NaN slips through, since NaN <= 0 is false. */
  predicate BadPrice(price: FormNumber) {
    !Given(price) || (price.Numeric? && price.value <= 0.0)
  }

  /** `offerPrice && Number(offerPrice) > Number(price)`: only two numbers compare. */
  predicate OfferAbovePrice(offer: FormNumber, price: FormNumber) {
    Given(offer) && offer.Numeric? && price.Numeric? && offer.value > price.value
  }

  /** The submitted form; `images` are the uploaded files' URLs. */
  datatype ProductForm = ProductForm(
    name: Option<string>,
    description: Option<string>,
    category: Option<string>,
    price: FormNumber,
    offerPrice: FormNumber,
    images: seq<string>)

  /** The route's field checks, in order; the first failure is reported. */
  function FormError(f: ProductForm): (r: Option<string>)
    ensures r.None? <==>
      f.name.Some? && !IsBlank(f.name.value) && f.description.Some? && !IsBlank(f.description.value) &&
      Truthy(f.category) && !BadPrice(f.price) && !OfferAbovePrice(f.offerPrice, f.price) && f.images != []
  {
    if f.name.None? || IsBlank(f.name.value) then Some("Product name is required")
    else if f.description.None? || IsBlank(f.description.value) then Some("Product description is required")
    else if !Truthy(f.category) then Some("Category is required")
    else if BadPrice(f.price) then Some("Valid price is required")
    else if OfferAbovePrice(f.offerPrice, f.price) then Some("Offer price cannot be greater than original price")
    else if f.images == [] then Some("At least one product image is required")
    else None
  }

  /** An offer equal to the price passes; only a higher one is refused. */
  lemma OfferEqualToPriceAccepted(f: ProductForm, v: real)
    requires f.price == Numeric(v) && f.offerPrice == Numeric(v)
    ensures !OfferAbovePrice(f.offerPrice, f.price)
  {
  }

  /** A price that does not parse passes the price check. */
  lemma NaNPricePassesCheck()
    ensures !BadPrice(NotNumeric)
  {
  }

  /** The product the route stores for a valid form. */
  function NewProduct(f: ProductForm, id: string, userId: string): (p: Product)
    requires FormError(f).None? && f.price.Numeric? && !f.offerPrice.NotNumeric?
    ensures p.name == Trim(f.name.value) && p.description == Trim(f.description.value)
    ensures p.price == f.price.value && p.price > 0.0
    ensures p.offerPrice == if f.offerPrice.Numeric? then Some(f.offerPrice.value) else None
    ensures p.offerPrice.Some? ==> p.offerPrice.value <= p.price
    ensures p.userId == userId && p.category == f.category.value && p.image == f.images
  {
    Product(id, userId, Trim(f.name.value), Trim(f.description.value), f.price.value,
            if f.offerPrice.Numeric? then Some(f.offerPrice.value) else None, f.category.value, f.images)
  }

  /** The product collection. */
  class ProductTable {
    var products: seq<Product>

    constructor (initial: seq<Product>)
      ensures products == initial
    {
      products := initial;
    }

    /** POST /api/product/add. Storing NaN as a price or a product without
        an owner fails the schema and is reported with the store's error
        text, `storeError`. */
    method AddProduct(session: Option<Session>, f: ProductForm, cats: seq<Category>,
                      newId: string, storeError: string)
      returns (r: Outcome<Product>)
      modifies this
      ensures r.Failure? ==> products == old(products)
      ensures r == (
        if session.None? then Failure(401, "Unauthorized")
        else if !Truthy(session.value.role) then Failure(403, "User role not found in session")
        else if !IsStaff(session.value.role) then
          Failure(403, "Not authorized. User role: " + session.value.role.value)
        else if FormError(f).Some? then Failure(400, FormError(f).value)
        else if !IsValidObjectId(f.category.value) then Failure(400, "Invalid category ID")
        else if NameFor(cats, f.category.value).None? then Failure(400, "Category not found")
        else if f.price.NotNumeric? || f.offerPrice.NotNumeric? || !Truthy(session.value.id) then
          Failure(500, storeError)
        else Success(NewProduct(f, newId, session.value.id.value)))
      ensures r.Success? ==> products == old(products) + [r.value]
    {
      if session.None? {
        return Failure(401, "Unauthorized");
      }
      if !Truthy(session.value.role) {
        return Failure(403, "User role not found in session");
      }
      if !IsStaff(session.value.role) {
        return Failure(403, "Not authorized. User role: " + session.value.role.value);
      }
      var error := FormError(f);
      if error.Some? {
        return Failure(400, error.value);
      }
      if !IsValidObjectId(f.category.value) {
        return Failure(400, "Invalid category ID");
      }
      if NameFor(cats, f.category.value).None? {
        return Failure(400, "Category not found");
      }
      if f.price.NotNumeric? || f.offerPrice.NotNumeric? || !Truthy(session.value.id) {
        return Failure(500, storeError);
      }
      var p := NewProduct(f, newId, session.value.id.value);
      products := products + [p];
      r := Success(p);
    }
  }
}
