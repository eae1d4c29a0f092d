/** Product categories: adding one without a case-insensitive duplicate
    (app/api/category/add/route.js) and the id-to-name map the product list
    builds from them (app/api/product/list/route.js). */
module Categories {
  import opened Common

  /** A category document (models/Product.js). */
  datatype Category = Category(id: string, name: string, createdBy: string)

  /** The name the map holds for `id` after a `forEach` over `cats`: the
      last category with that id wins. */
  function NameFor(cats: seq<Category>, id: string): (r: Option<string>)
    ensures r.Some? ==> exists k :: 0 <= k < |cats| && cats[k].id == id && cats[k].name == r.value
    ensures r.None? <==> forall k :: 0 <= k < |cats| ==> cats[k].id != id
  {
    if cats == [] then None
    else if cats[|cats| - 1].id == id then Some(cats[|cats| - 1].name)
    else NameFor(cats[..|cats| - 1], id)
  }

  /** `categories.forEach(cat => { categoryMap[cat._id] = cat.name })`. */
  method BuildCategoryMap(cats: seq<Category>) returns (categoryMap: map<string, string>)
    ensures forall id :: id in categoryMap <==> NameFor(cats, id).Some?
    ensures forall id :: id in categoryMap ==> categoryMap[id] == NameFor(cats, id).value
  {
    categoryMap := map[];
    var i := 0;
    while i < |cats|
      invariant 0 <= i <= |cats|
      invariant forall id :: id in categoryMap <==> NameFor(cats[..i], id).Some?
      invariant forall id :: id in categoryMap ==> categoryMap[id] == NameFor(cats[..i], id).value
    {
      assert cats[..i + 1][..i] == cats[..i];
      categoryMap := categoryMap[cats[i].id := cats[i].name];
      i := i + 1;
    }
    assert cats[..i] == cats;
  }

  /** Category ids do not repeat. */
  ghost predicate UniqueIds(cats: seq<Category>) {
    forall i, j :: 0 <= i < j < |cats| ==> cats[i].id != cats[j].id
  }

  /** With unique ids the map gives each category its own name. */
  lemma NameForIsOwnName(cats: seq<Category>, k: nat)
    requires UniqueIds(cats) && k < |cats|
    ensures NameFor(cats, cats[k].id) == Some(cats[k].name)
  {
    var r := NameFor(cats, cats[k].id);
    var j :| 0 <= j < |cats| && cats[j].id == cats[k].id && cats[j].name == r.value;
  }

  /** No two category names are equal ignoring case. */
  ghost predicate NamesDistinctIgnoringCase(cats: seq<Category>) {
    forall i, j :: 0 <= i < j < |cats| ==> !EqualsIgnoreCase(cats[i].name, cats[j].name)
  }

  /** `findOne({name: /^name$/i})`: a category whose name equals `name`
      ignoring case. */
  function FindByNameIgnoringCase(cats: seq<Category>, name: string): (r: Option<nat>)
    ensures r.Some? ==> r.value < |cats| && EqualsIgnoreCase(cats[r.value].name, name)
    ensures r.None? <==> forall k :: 0 <= k < |cats| ==> !EqualsIgnoreCase(cats[k].name, name)
  {
    if cats == [] then None
    else if EqualsIgnoreCase(cats[0].name, name) then Some(0)
    else match FindByNameIgnoringCase(cats[1..], name)
      case None => None
      case Some(k) => Some(k + 1)
  }

  /** The category collection. */
  class CategoryTable {
    var categories: seq<Category>

    ghost predicate Valid()
      reads this
    {
      NamesDistinctIgnoringCase(categories)
    }

    constructor ()
      ensures Valid() && categories == []
    {
      categories := [];
    }

    /** POST /api/category/add: staff only, a non-blank name, no existing
        name equal ignoring case; the stored name is trimmed. A session
        without a user id fails the schema's `createdBy` requirement. */
    method AddCategory(session: Option<Session>, name: Option<string>, newId: string)
      returns (r: Outcome<Category>)
      requires Valid()
      modifies this
      ensures Valid()
      ensures r.Failure? ==> categories == old(categories)
      ensures r == (
        if session.None? then Failure(401, "Unauthorized")
        else if !IsStaff(session.value.role) then Failure(403, "Not authorized")
        else if name.None? || IsBlank(name.value) then Failure(400, "Category name is required")
        else if FindByNameIgnoringCase(old(categories), Trim(name.value)).Some? then
          Failure(400, "Category already exists")
        else if !Truthy(session.value.id) then Failure(500, "Something went wrong")
        else Success(Category(newId, Trim(name.value), session.value.id.value)))
      ensures r.Success? ==> categories == old(categories) + [r.value]
    {
      if session.None? {
        return Failure(401, "Unauthorized");
      }
      if !IsStaff(session.value.role) {
        return Failure(403, "Not authorized");
      }
      if name.None? || IsBlank(name.value) {
        return Failure(400, "Category name is required");
      }
      var trimmed := Trim(name.value);
      if FindByNameIgnoringCase(categories, trimmed).Some? {
        return Failure(400, "Category already exists");
      }
      if !Truthy(session.value.id) {
        return Failure(500, "Something went wrong");
      }
      var c := Category(newId, trimmed, session.value.id.value);
      categories := categories + [c];
      r := Success(c);
    }
  }
}
