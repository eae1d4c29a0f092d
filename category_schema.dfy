/** The structured data of a category page, components/CategorySeoSchema.jsx:
    a schema.org `CollectionPage` with a two-step `BreadcrumbList` and, when
    the category has products, an `ItemList` of at most twelve `Product`
    entries. The object is modelled before `JSON.stringify` writes it out. */
module CategorySchema {
  import opened Common

  const SchemaContext := "https://schema.org"
  const FallbackOrigin := "https://www.7even86gamehub.pk"
  const InStock := "https://schema.org/InStock"
  const OutOfStock := "https://schema.org/OutOfStock"
  const MaxListed := 12

  /** A JavaScript value the component passes through unchanged: a text, an
      array of texts, or `undefined`. */
  datatype Value = Text(s: string) | Texts(items: seq<string>) | Undefined

  predicate TruthyValue(v: Value) {
    (v.Text? && v.s != "") || v.Texts?
  }

  /** A product as the page hands it over; only the fields read here. */
  datatype SchemaProduct = SchemaProduct(
    id: string,
    name: string,
    description: Option<string>,
    image: Value,
    images: Option<seq<string>>,
    price: Option<real>,
    stock: Option<real>,
    slug: Option<string>)

  datatype Offer = Offer(price: Option<real>, priceCurrency: string, availability: string, url: string)

  datatype ProductEntry = ProductEntry(name: string, description: string, image: Value, offers: Offer)

  /** A `ListItem` of the product list. */
  datatype ProductItem = ProductItem(position: nat, item: ProductEntry)

  /** A `ListItem` of the breadcrumb. */
  datatype Crumb = Crumb(position: nat, name: string, item: string)

  datatype ItemList = ItemList(numberOfItems: nat, itemListElement: seq<ProductItem>)

  datatype CollectionPage = CollectionPage(
    context: string,
    name: string,
    description: string,
    url: string,
    breadcrumb: seq<Crumb>,
    mainEntity: Option<ItemList>)

  /** `window.location.origin` in the browser, the fixed site address on the server. */
  function Origin(windowOrigin: Option<string>): string {
    if windowOrigin.Some? then windowOrigin.value else FallbackOrigin
  }

  /** `product.image || (Array.isArray(product.images) ? product.images[0] : "")`. */
  function ImageOf(p: SchemaProduct): (v: Value)
    ensures TruthyValue(p.image) ==> v == p.image
    ensures !TruthyValue(p.image) && p.images.None? ==> v == Text("")
    ensures !TruthyValue(p.image) && p.images.Some? && p.images.value != [] ==> v == Text(p.images.value[0])
    ensures !TruthyValue(p.image) && p.images == Some([]) ==> v == Undefined
  {
    if TruthyValue(p.image) then p.image
    else if p.images.Some? then (if p.images.value != [] then Text(p.images.value[0]) else Undefined)
    else Text("")
  }

  /** One product's entry: its own description or "<name> - Available now",
      in stock only for a positive stock, linked by slug or else by id. */
  function EntryOf(p: SchemaProduct, origin: string): (e: ProductEntry)
    ensures e.name == p.name
    ensures e.description == if Truthy(p.description) then p.description.value else p.name + " - Available now"
    ensures e.offers.availability == InStock <==> p.stock.Some? && p.stock.value > 0.0
    ensures e.offers.availability == OutOfStock <==> !(p.stock.Some? && p.stock.value > 0.0)
    ensures e.offers.url == origin + "/product/" + (if Truthy(p.slug) then p.slug.value else p.id)
    ensures e.offers.price == p.price && e.offers.priceCurrency == "PKR"
    ensures e.image == ImageOf(p)
  {
    ProductEntry(
      p.name,
      if Truthy(p.description) then p.description.value else p.name + " - Available now",
      ImageOf(p),
      Offer(p.price, "PKR",
            if p.stock.Some? && p.stock.value > 0.0 then InStock else OutOfStock,
            origin + "/product/" + (if Truthy(p.slug) then p.slug.value else p.id)))
  }

  /** `products.slice(0, 12).map((product, index) => ...)`. */
  function ListedItems(products: seq<SchemaProduct>, origin: string): (r: seq<ProductItem>)
    ensures |r| == if |products| < MaxListed then |products| else MaxListed
    ensures forall i :: 0 <= i < |r| ==> r[i].position == i + 1 && r[i].item == EntryOf(products[i], origin)
  {
    var shown := if |products| < MaxListed then products else products[..MaxListed];
    seq(|shown|, i requires 0 <= i < |shown| => ProductItem(i + 1, EntryOf(shown[i], origin)))
  }

  /** The component: nothing without a category name and slug; otherwise
      the page object, with `mainEntity` only for a non-empty product list. */
  function Schema(categoryName: Option<string>, categorySlug: Option<string>,
                  products: Option<seq<SchemaProduct>>, seoDescription: Option<string>,
                  windowOrigin: Option<string>): (r: Option<CollectionPage>)
    ensures r.None? <==> !Truthy(categoryName) || !Truthy(categorySlug)
    ensures r.Some? ==> r.value.name == categoryName.value
    ensures r.Some? && Truthy(seoDescription) ==> r.value.description == seoDescription.value
    ensures r.Some? && !Truthy(seoDescription) ==>
      r.value.description == "Browse our " + categoryName.value + " collection in Pakistan."
  {
    if !Truthy(categoryName) || !Truthy(categorySlug) then None
    else
      var origin := Origin(windowOrigin);
      var name := categoryName.value;
      var url := origin + "/" + categorySlug.value;
      Some(CollectionPage(
        SchemaContext,
        name,
        if Truthy(seoDescription) then seoDescription.value else "Browse our " + name + " collection in Pakistan.",
        url,
        [Crumb(1, "Home", origin), Crumb(2, name, url)],
        if products.Some? && |products.value| > 0 then
          Some(ItemList(|products.value|, ListedItems(products.value, origin)))
        else None))
  }

  /** The breadcrumb is Home at the origin, then the category at
      origin/slug, at positions 1 and 2; the page's own URL is the second. */
  lemma BreadcrumbHasTwoSteps(categoryName: Option<string>, categorySlug: Option<string>,
                              products: Option<seq<SchemaProduct>>, seoDescription: Option<string>,
                              windowOrigin: Option<string>)
    requires Truthy(categoryName) && Truthy(categorySlug)
    ensures var page := Schema(categoryName, categorySlug, products, seoDescription, windowOrigin).value;
      |page.breadcrumb| == 2 &&
      page.breadcrumb[0] == Crumb(1, "Home", Origin(windowOrigin)) &&
      page.breadcrumb[1] == Crumb(2, categoryName.value, Origin(windowOrigin) + "/" + categorySlug.value) &&
      page.url == page.breadcrumb[1].item
  {
  }

  /** The product list exists iff there are products; it counts them all
      but lists at most twelve, at consecutive positions from 1. */
  lemma ItemListCountsAllListsTwelve(categoryName: Option<string>, categorySlug: Option<string>,
                                     products: Option<seq<SchemaProduct>>, seoDescription: Option<string>,
                                     windowOrigin: Option<string>)
    requires Truthy(categoryName) && Truthy(categorySlug)
    ensures var page := Schema(categoryName, categorySlug, products, seoDescription, windowOrigin).value;
      (page.mainEntity.Some? <==> products.Some? && products.value != []) &&
      (page.mainEntity.Some? ==>
        page.mainEntity.value.numberOfItems == |products.value| &&
        |page.mainEntity.value.itemListElement| <= MaxListed &&
        |page.mainEntity.value.itemListElement| <= |products.value| &&
        (|products.value| >= MaxListed ==> |page.mainEntity.value.itemListElement| == MaxListed) &&
        (|products.value| < MaxListed ==> |page.mainEntity.value.itemListElement| == |products.value|) &&
        (forall i :: 0 <= i < |page.mainEntity.value.itemListElement| ==>
          page.mainEntity.value.itemListElement[i].position == i + 1 &&
          page.mainEntity.value.itemListElement[i].item.name == products.value[i].name))
  {
    if products.Some? && products.value != [] {
      var items := ListedItems(products.value, Origin(windowOrigin));
      forall i | 0 <= i < |items| ensures items[i].item.name == products.value[i].name {
        assert items[i].item == EntryOf(products.value[i], Origin(windowOrigin));
      }
    }
  }
}
