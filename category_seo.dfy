/** Per-category SEO records, app/api/seo/category/route.js over the
    collection of models/CategorySeo.js: the listing in slug order, the
    upsert keyed by category id or slug, and removal by slug. */
module CategorySeo {
  import opened Common
  import opened Categories
  import opened Sorting

  /** The `seo` object of a record; only title and description are checked. */
  datatype SeoFields = SeoFields(title: Option<string>, description: Option<string>, keywords: seq<string>)

  /** A stored record; `categoryId` is optional (a sparse unique index). */
  datatype SeoRecord = SeoRecord(
    id: string,
    categoryId: Option<string>,
    categorySlug: string,
    categoryName: string,
    seo: SeoFields,
    isActive: Option<bool>)

  /** The POST body. */
  datatype SeoRequest = SeoRequest(
    categoryId: Option<string>,
    categorySlug: Option<string>,
    categoryName: Option<string>,
    seo: Option<SeoFields>,
    isActive: Option<bool>)

  /** A saved record with the status the route answers with. */
  datatype Saved = Saved(record: SeoRecord, status: nat)

  // ---------------------------------------------------------------------------
  // Listing

  function SlugOrder(): (SeoRecord, SeoRecord) -> bool {
    (a: SeoRecord, b: SeoRecord) => LexLe(a.categorySlug, b.categorySlug)
  }

  /** GET: `.sort({categorySlug: 1})`. */
  function Listing(records: seq<SeoRecord>): seq<SeoRecord> {
    SortBy(records, SlugOrder())
  }

  /** The listing holds the same records, in ascending slug order. */
  lemma ListingSortedBySlug(records: seq<SeoRecord>)
    ensures multiset(Listing(records)) == multiset(records)
    ensures forall i, j :: 0 <= i < j < |Listing(records)| ==>
      LexLe(Listing(records)[i].categorySlug, Listing(records)[j].categorySlug)
  {
    forall a: SeoRecord, b: SeoRecord ensures SlugOrder()(a, b) || SlugOrder()(b, a) {
      LexLeTotal(a.categorySlug, b.categorySlug);
    }
    forall a: SeoRecord, b: SeoRecord, c: SeoRecord | SlugOrder()(a, b) && SlugOrder()(b, c)
      ensures SlugOrder()(a, c)
    {
      LexLeTransitive(a.categorySlug, b.categorySlug, c.categorySlug);
    }
    SortBySorted(records, SlugOrder());
  }

  // ---------------------------------------------------------------------------
  // Upsert

  /** All four required fields are present and non-empty. */
  predicate HasRequiredFields(req: SeoRequest) {
    Truthy(req.categorySlug) && Truthy(req.categoryName) &&
    req.seo.Some? && Truthy(req.seo.value.title) && Truthy(req.seo.value.description)
  }

  /** `slug.replace(/-/g, " ")`. */
  function Unslug(slug: string): (r: string)
    ensures |r| == |slug|
    ensures forall k :: 0 <= k < |r| ==> r[k] == if slug[k] == '-' then ' ' else slug[k]
  {
    if slug == [] then [] else [if slug[0] == '-' then ' ' else slug[0]] + Unslug(slug[1..])
  }

  /** The category's name equals one of two texts, ignoring case. */
  predicate NamedAs(c: Category, a: string, b: string) {
    EqualsIgnoreCase(c.name, a) || EqualsIgnoreCase(c.name, b)
  }

  /** The regex match of the lookup: the category's name equals the trimmed
      name or the un-slugged slug, ignoring case. */
  predicate NamedBy(c: Category, name: string, slug: string) {
    NamedAs(c, Trim(name), Unslug(slug))
  }

  /** The first category named as one of the two texts. */
  function FirstNamedAs(cats: seq<Category>, a: string, b: string): (r: Option<nat>)
    ensures r.Some? ==> r.value < |cats| && NamedAs(cats[r.value], a, b)
    ensures r.Some? ==> forall k :: 0 <= k < r.value ==> !NamedAs(cats[k], a, b)
    ensures r.None? <==> forall k :: 0 <= k < |cats| ==> !NamedAs(cats[k], a, b)
  {
    if cats == [] then None
    else if NamedAs(cats[0], a, b) then Some(0)
    else match FirstNamedAs(cats[1..], a, b)
      case None => None
      case Some(k) => Some(k + 1)
  }

  /** `Category.findOne` by name or slug: the first category that matches. */
  function FindCategoryFor(cats: seq<Category>, name: string, slug: string): (r: Option<nat>)
    ensures r.Some? ==> r.value < |cats| && NamedBy(cats[r.value], name, slug)
    ensures r.Some? ==> forall k :: 0 <= k < r.value ==> !NamedBy(cats[k], name, slug)
    ensures r.None? <==> forall k :: 0 <= k < |cats| ==> !NamedBy(cats[k], name, slug)
  {
    FirstNamedAs(cats, Trim(name), Unslug(slug))
  }

  /** The category id the route goes on with: the given one, else the id of
      the category found by name or slug, else none. */
  function ResolvedCategoryId(req: SeoRequest, cats: seq<Category>): (r: Option<string>)
    requires HasRequiredFields(req)
    ensures Truthy(req.categoryId) ==> r == req.categoryId
    ensures !Truthy(req.categoryId) ==>
      (r.Some? <==> exists k :: 0 <= k < |cats| && NamedBy(cats[k], req.categoryName.value, req.categorySlug.value))
    ensures !Truthy(req.categoryId) && r.Some? ==>
      exists k :: 0 <= k < |cats| && cats[k].id == r.value &&
        NamedBy(cats[k], req.categoryName.value, req.categorySlug.value) &&
        forall j :: 0 <= j < k ==> !NamedBy(cats[j], req.categoryName.value, req.categorySlug.value)
  {
    if Truthy(req.categoryId) then req.categoryId
    else match FindCategoryFor(cats, req.categoryName.value, req.categorySlug.value)
      case Some(k) => Some(cats[k].id)
      case None => None
  }

  /** The `$or` filter: the category id, when there is one, or the slug. */
  predicate Matches(r: SeoRecord, categoryId: Option<string>, slug: string) {
    (Truthy(categoryId) && r.categoryId == categoryId) || r.categorySlug == slug
  }

  /** `CategorySeo.findOne({$or: ...})`: the first record that matches. */
  function FindExisting(records: seq<SeoRecord>, categoryId: Option<string>, slug: string): (r: Option<nat>)
    ensures r.Some? ==> r.value < |records| && Matches(records[r.value], categoryId, slug)
    ensures r.Some? ==> forall k :: 0 <= k < r.value ==> !Matches(records[k], categoryId, slug)
    ensures r.None? <==> forall k :: 0 <= k < |records| ==> !Matches(records[k], categoryId, slug)
  {
    if records == [] then None
    else if Matches(records[0], categoryId, slug) then Some(0)
    else match FindExisting(records[1..], categoryId, slug)
      case None => None
      case Some(k) => Some(k + 1)
  }

  /** The existing record after the route's field assignments. */
  function Updated(r: SeoRecord, categoryId: Option<string>, req: SeoRequest): (u: SeoRecord)
    requires HasRequiredFields(req)
    ensures u.id == r.id
    ensures u.categoryId == if Truthy(categoryId) then categoryId else r.categoryId
    ensures u.categorySlug == req.categorySlug.value && u.categoryName == req.categoryName.value
    ensures u.seo == req.seo.value && u.isActive == req.isActive
  {
    r.(categoryId := if Truthy(categoryId) then categoryId else r.categoryId,
       categorySlug := req.categorySlug.value,
       categoryName := req.categoryName.value,
       seo := req.seo.value,
       isActive := req.isActive)
  }

  /** Updating twice with the same request changes nothing more. */
  lemma UpdateIdempotent(r: SeoRecord, categoryId: Option<string>, req: SeoRequest)
    requires HasRequiredFields(req)
    ensures Updated(Updated(r, categoryId, req), categoryId, req) == Updated(r, categoryId, req)
  {
  }

  /** The record `CategorySeo.create` makes; `categoryId` only when there is
      one, and `isActive` takes the schema default `true` when the body
      leaves it out. On update an absent `isActive` is assigned as is. */
  function Created(id: string, categoryId: Option<string>, req: SeoRequest): (c: SeoRecord)
    requires HasRequiredFields(req)
    ensures c.categoryId.Some? <==> Truthy(categoryId)
    ensures c.categoryId.Some? ==> c.categoryId == categoryId
    ensures c.categorySlug == req.categorySlug.value && c.seo == req.seo.value
    ensures c.isActive == Some(if req.isActive.Some? then req.isActive.value else true)
  {
    SeoRecord(id, if Truthy(categoryId) then categoryId else None,
              req.categorySlug.value, req.categoryName.value, req.seo.value, Some(req.isActive.GetOr(true)))
  }

  /** Another record already holds `r`'s slug or category id: the unique
      indexes refuse the save. */
  predicate Clashes(records: seq<SeoRecord>, i: nat, r: SeoRecord) {
    exists j :: 0 <= j < |records| && j != i &&
      (records[j].categorySlug == r.categorySlug ||
       (Truthy(r.categoryId) && records[j].categoryId == r.categoryId))
  }

  /** The two unique indexes: slugs, and category ids where present. */
  ghost predicate UniqueKeys(records: seq<SeoRecord>) {
    forall i, j :: 0 <= i < j < |records| ==>
      records[i].categorySlug != records[j].categorySlug &&
      (Truthy(records[i].categoryId) ==> records[i].categoryId != records[j].categoryId)
  }

  /** With unique keys, the record just saved under a slug is the one a
      second request with that slug and id finds. */
  lemma {:induction false} SavedRecordIsFound(records: seq<SeoRecord>, i: nat, categoryId: Option<string>)
    requires UniqueKeys(records) && i < |records|
    requires !Truthy(categoryId) || records[i].categoryId == categoryId
    ensures FindExisting(records, categoryId, records[i].categorySlug) == Some(i)
  {
    assert Matches(records[i], categoryId, records[i].categorySlug);
  }

  // ---------------------------------------------------------------------------
  // Deletion

  /** `findOneAndDelete({categorySlug})`: the first record with that slug. */
  function FindBySlug(records: seq<SeoRecord>, slug: string): (r: Option<nat>)
    ensures r.Some? ==> r.value < |records| && records[r.value].categorySlug == slug
    ensures r.None? <==> forall k :: 0 <= k < |records| ==> records[k].categorySlug != slug
  {
    if records == [] then None
    else if records[0].categorySlug == slug then Some(0)
    else match FindBySlug(records[1..], slug)
      case None => None
      case Some(k) => Some(k + 1)
  }

  /** With unique slugs, deleting by slug leaves no record with that slug
      and keeps every other record. */
  lemma DeleteRemovesSlug(records: seq<SeoRecord>, i: nat)
    requires UniqueKeys(records) && i < |records|
    ensures forall r :: r in records[..i] + records[i + 1..] ==> r.categorySlug != records[i].categorySlug
    ensures forall k :: 0 <= k < |records| && k != i ==> records[k] in records[..i] + records[i + 1..]
  {
    var rest := records[..i] + records[i + 1..];
    forall r | r in rest ensures r.categorySlug != records[i].categorySlug {
      var k :| 0 <= k < |rest| && rest[k] == r;
      if k < i {
        assert r == records[k];
      } else {
        assert r == records[k + 1];
      }
    }
    forall k | 0 <= k < |records| && k != i ensures records[k] in rest {
      if k < i {
        assert rest[k] == records[k];
      } else {
        assert rest[k - 1] == records[k];
      }
    }
  }

  /** Removing one record keeps the unique indexes. */
  lemma RemovalKeepsUnique(records: seq<SeoRecord>, i: nat)
    requires UniqueKeys(records) && i < |records|
    ensures UniqueKeys(records[..i] + records[i + 1..])
  {
    var rest := records[..i] + records[i + 1..];
    forall a, b | 0 <= a < b < |rest|
      ensures rest[a].categorySlug != rest[b].categorySlug &&
        (Truthy(rest[a].categoryId) ==> rest[a].categoryId != rest[b].categoryId)
    {
      var a' := if a < i then a else a + 1;
      var b' := if b < i then b else b + 1;
      assert rest[a] == records[a'] && rest[b] == records[b'];
    }
  }

  /** The CategorySeo collection. */
  class CategorySeoTable {
    var records: seq<SeoRecord>

    ghost predicate Valid()
      reads this
    {
      UniqueKeys(records)
    }

    constructor ()
      ensures Valid() && records == []
    {
      records := [];
    }

    /** POST: validate, resolve the category id, then update the first
        record matching by id or slug field by field, or create one.
        `cats` is the category collection; `storeError` the store's message
        when a unique index refuses the save. */
    method Upsert(req: SeoRequest, cats: seq<Category>, newId: string, storeError: string)
      returns (r: Outcome<Saved>)
      requires Valid()
      modifies this
      ensures Valid()
      ensures !HasRequiredFields(req) ==>
        r == Failure(400, "Missing required fields (categorySlug, categoryName, seo.title, seo.description)") &&
        records == old(records)
      ensures HasRequiredFields(req) ==>
        var id := ResolvedCategoryId(req, cats);
        match FindExisting(old(records), id, req.categorySlug.value)
        case Some(i) =>
          var u := Updated(old(records)[i], id, req);
          if Clashes(old(records), i, u) then r == Failure(500, storeError) && records == old(records)
          else r == Success(Saved(u, 200)) && records == old(records)[i := u]
        case None =>
          r == Success(Saved(Created(newId, id, req), 201)) && records == old(records) + [Created(newId, id, req)]
    {
      if !HasRequiredFields(req) {
        return Failure(400, "Missing required fields (categorySlug, categoryName, seo.title, seo.description)");
      }
      var categoryId := req.categoryId;
      if !Truthy(categoryId) {
        var found := FindCategoryFor(cats, req.categoryName.value, req.categorySlug.value);
        if found.Some? {
          categoryId := Some(cats[found.value].id);
        }
      }
      var existing := FindExisting(records, categoryId, req.categorySlug.value);
      if existing.Some? {
        var i := existing.value;
        var rec := records[i];
        if Truthy(categoryId) {
          rec := rec.(categoryId := categoryId);
        }
        rec := rec.(categorySlug := req.categorySlug.value);
        rec := rec.(categoryName := req.categoryName.value);
        rec := rec.(seo := req.seo.value);
        rec := rec.(isActive := req.isActive);
        if Clashes(records, i, rec) {
          return Failure(500, storeError);
        }
        UpdateKeepsUnique(records, i, rec);
        records := records[i := rec];
        r := Success(Saved(rec, 200));
      } else {
        var c := Created(newId, categoryId, req);
        CreateKeepsUnique(records, c, categoryId);
        records := records + [c];
        r := Success(Saved(c, 201));
      }
    }

    /** DELETE `?slug=`: a missing slug is refused, an unknown one is 404,
        otherwise that record goes. */
    method Delete(slug: Option<string>) returns (r: Outcome<SeoRecord>)
      requires Valid()
      modifies this
      ensures Valid()
      ensures !Truthy(slug) ==> r == Failure(400, "Category slug is required") && records == old(records)
      ensures Truthy(slug) && FindBySlug(old(records), slug.value).None? ==>
        r == Failure(404, "Category not found") && records == old(records)
      ensures Truthy(slug) && FindBySlug(old(records), slug.value).Some? ==>
        var i := FindBySlug(old(records), slug.value).value;
        r == Success(old(records)[i]) && records == old(records)[..i] + old(records)[i + 1..]
    {
      if !Truthy(slug) {
        return Failure(400, "Category slug is required");
      }
      var found := FindBySlug(records, slug.value);
      if found.None? {
        return Failure(404, "Category not found");
      }
      var i := found.value;
      r := Success(records[i]);
      RemovalKeepsUnique(records, i);
      records := records[..i] + records[i + 1..];
    }
  }

  /** A record that clashes with no other keeps the indexes unique. */
  lemma UpdateKeepsUnique(records: seq<SeoRecord>, i: nat, u: SeoRecord)
    requires UniqueKeys(records) && i < |records| && !Clashes(records, i, u)
    ensures UniqueKeys(records[i := u])
  {
    var s := records[i := u];
    forall a, b | 0 <= a < b < |s|
      ensures s[a].categorySlug != s[b].categorySlug &&
        (Truthy(s[a].categoryId) ==> s[a].categoryId != s[b].categoryId)
    {
      if a == i {
        assert !(records[b].categorySlug == u.categorySlug || (Truthy(u.categoryId) && records[b].categoryId == u.categoryId));
      } else if b == i {
        assert !(records[a].categorySlug == u.categorySlug || (Truthy(u.categoryId) && records[a].categoryId == u.categoryId));
      }
    }
  }

  /** A new record that no existing record matches keeps the indexes unique. */
  lemma CreateKeepsUnique(records: seq<SeoRecord>, c: SeoRecord, categoryId: Option<string>)
    requires UniqueKeys(records)
    requires forall k :: 0 <= k < |records| ==> !Matches(records[k], categoryId, c.categorySlug)
    requires c.categoryId.Some? ==> c.categoryId == categoryId && Truthy(categoryId)
    ensures UniqueKeys(records + [c])
  {
    var s := records + [c];
    forall a, b | 0 <= a < b < |s|
      ensures s[a].categorySlug != s[b].categorySlug &&
        (Truthy(s[a].categoryId) ==> s[a].categoryId != s[b].categoryId)
    {
      if b == |records| {
        assert !Matches(records[a], categoryId, c.categorySlug);
      }
    }
  }
}
