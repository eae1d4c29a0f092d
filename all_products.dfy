/** The catalogue page, app/all-products/page.jsx: the distinct categories
    in first-appearance order, the products of the selected categories,
    toggling and clearing the selection, and the category slug.

    The page reads `p.category` as it comes: a string in the bundled sample
    data, but the `{_id, name}` object that GET /api/product/list attaches
    to every product. The page as written is modelled on both kinds of
    value; the rest of the module models the page reading the category's
    name, which is what the page evidently means. */
module AllProducts {
  import opened Common
  import opened Catalog
  import Products

  /** A `p.category` value: a string, or an object. `ref` stands for the
      object's identity: `Set` and `includes` compare objects by reference,
      and two values with one `ref` are the same object. */
  datatype CategoryValue = Text(s: string) | Ref(ref: nat, id: string, name: string)

  /** A product as the page holds it. */
  datatype PageProduct = PageProduct(product: Product, category: CategoryValue)

  /** `Boolean(v)`: an object is always truthy. */
  predicate TruthyValue(v: CategoryValue) {
    v.Ref? || v.s != ""
  }

  /** The category's name: the string itself, or the object's `name`. */
  function Label(v: CategoryValue): string {
    match v
    case Text(s) => s
    case Ref(_, _, name) => name
  }

  /** What the page gets from GET /api/product/list: a new category object
      for every product. */
  function FromList(data: seq<Products.ListedProduct>): (r: seq<PageProduct>)
    ensures |r| == |data|
    ensures forall k :: 0 <= k < |r| ==>
      r[k] == PageProduct(data[k].product, Ref(k, data[k].category.id, data[k].category.name))
  {
    seq(|data|, k requires 0 <= k < |data| =>
      PageProduct(data[k].product, Ref(k, data[k].category.id, data[k].category.name)))
  }

  // ---------------------------------------------------------------------------
  // Distinct values

  /** The condition "is not `x`". */
  function Differs<T(==)>(x: T): T -> bool {
    y => y != x
  }

  /** `[...new Set(s)]`: each value once, where it first appears. */
  function Dedup<T(==)>(s: seq<T>): (r: seq<T>)
    decreases |s|
  {
    if s == [] then [] else [s[0]] + Dedup(Filter(s[1..], Differs(s[0])))
  }

  /** A `Set`'s iteration order, built by walking `s` from the left: a
      value is kept only when it has not occurred before. */
  function FirstOccurrences<T(==)>(s: seq<T>): seq<T> {
    if s == [] then []
    else
      var init, last := s[..|s| - 1], s[|s| - 1];
      FirstOccurrences(init) + (if last in init then [] else [last])
  }

  /** Walking one more value appends it when it is new. */
  lemma FirstOccurrencesSnoc<T>(s: seq<T>, y: T)
    ensures FirstOccurrences(s + [y]) == FirstOccurrences(s) + (if y in s then [] else [y])
  {
    assert (s + [y])[..|s|] == s;
  }

  /** Walking `[x] + t` keeps `x` first and then the new values of `t`
      other than `x`. */
  lemma {:induction false} FirstOccurrencesCons<T(!new)>(x: T, t: seq<T>)
    ensures FirstOccurrences([x] + t) == [x] + FirstOccurrences(Filter(t, Differs(x)))
    decreases |t|
  {
    if t == [] {
      FirstOccurrencesSnoc([], x);
      assert [x] + t == [] + [x];
    } else {
      var init, y := t[..|t| - 1], t[|t| - 1];
      FirstOccurrencesCons(x, init);
      assert t == init + [y];
      if y == x {
        ConsStepRepeat(x, init);
      } else {
        ConsStepNew(x, init, y);
      }
    }
  }

  /** The step of `FirstOccurrencesCons` for another `x`. */
  lemma ConsStepRepeat<T>(x: T, init: seq<T>)
    requires FirstOccurrences([x] + init) == [x] + FirstOccurrences(Filter(init, Differs(x)))
    ensures FirstOccurrences([x] + (init + [x])) == [x] + FirstOccurrences(Filter(init + [x], Differs(x)))
  {
    assert [x] + (init + [x]) == ([x] + init) + [x];
    assert x in [x] + init;
    FirstOccurrencesSnoc([x] + init, x);
    FilterAppend(init, x, Differs(x));
    assert Filter(init + [x], Differs(x)) == Filter(init, Differs(x));
  }

  /** The step of `FirstOccurrencesCons` for a value other than `x`. */
  lemma ConsStepNew<T(!new)>(x: T, init: seq<T>, y: T)
    requires y != x
    requires FirstOccurrences([x] + init) == [x] + FirstOccurrences(Filter(init, Differs(x)))
    ensures FirstOccurrences([x] + (init + [y])) == [x] + FirstOccurrences(Filter(init + [y], Differs(x)))
  {
    var f := Filter(init, Differs(x));
    FilterKeepsOther(x, init, y);
    assert [x] + (init + [y]) == ([x] + init) + [y];
    SnocBothSides([x] + init, x, f, y);
  }

  /** Filtering out `x` keeps any other `y`, and keeps it last. */
  lemma FilterKeepsOther<T(!new)>(x: T, init: seq<T>, y: T)
    requires y != x
    ensures Filter(init + [y], Differs(x)) == Filter(init, Differs(x)) + [y]
    ensures y in [x] + init <==> y in Filter(init, Differs(x))
  {
    FilterAppend(init, y, Differs(x));
    FilterMembers(init, Differs(x));
  }

  /** Two walks that agree up to a leading `x` still agree after one more
      value that either both or neither have seen. */
  lemma SnocBothSides<T>(a: seq<T>, x: T, f: seq<T>, y: T)
    requires FirstOccurrences(a) == [x] + FirstOccurrences(f)
    requires y in a <==> y in f
    ensures FirstOccurrences(a + [y]) == [x] + FirstOccurrences(f + [y])
  {
    FirstOccurrencesSnoc(a, y);
    FirstOccurrencesSnoc(f, y);
  }

  lemma {:induction false} DedupSpec<T(!new)>(s: seq<T>)
    ensures Dedup(s) == FirstOccurrences(s)
    ensures Distinct(Dedup(s))
    ensures forall x :: x in Dedup(s) <==> x in s
    ensures s != [] ==> Dedup(s)[0] == s[0]
    decreases |s|
  {
    if s != [] {
      FirstOccurrencesCons(s[0], s[1..]);
      var rest := Filter(s[1..], Differs(s[0]));
      DedupSpec(rest);
      FilterMembers(s[1..], Differs(s[0]));
      assert s == [s[0]] + s[1..];
      assert s[0] !in Dedup(rest);
      DistinctCons(s[0], Dedup(rest));
    }
  }

  /** Deduplicating a list without repeats changes nothing. */
  lemma {:induction false} DedupKeepsDistinct<T>(s: seq<T>)
    requires Distinct(s)
    ensures Dedup(s) == s
    decreases |s|
  {
    if s != [] {
      forall k | 0 <= k < |s[1..]| ensures Differs(s[0])(s[1..][k]) {
        DistinctApart(s, k + 1, 0);
      }
      DistinctTail(s);
      FilterAllPass(s[1..], Differs(s[0]));
      DedupKeepsDistinct(s[1..]);
    }
  }

  // ---------------------------------------------------------------------------
  // The category list as written: the values themselves

  /** `products.map(p => p.category).filter(Boolean)`, as written. */
  function CategoryValuesAsWritten(products: seq<PageProduct>): (r: seq<CategoryValue>)
    ensures |r| <= |products|
    ensures forall x :: x in r ==> TruthyValue(x)
  {
    if products == [] then []
    else
      var rest := CategoryValuesAsWritten(products[1..]);
      if TruthyValue(products[0].category) then [products[0].category] + rest else rest
  }

  /** `[...new Set(cats)]`, as written. */
  function CategoriesAsWritten(products: seq<PageProduct>): seq<CategoryValue> {
    Dedup(CategoryValuesAsWritten(products))
  }

  /** The slug expression as written: `slugMap[category]` misses for an
      object (the key it looks up is "[object Object]"), and an object has
      no `toLowerCase`, so rendering throws a TypeError; `None` is that
      throw. */
  function SlugAsWritten(v: CategoryValue): (r: Option<string>)
    ensures r.Some? <==> v.Text?
    ensures v.Text? ==> r.value == Slug(v.s)
  {
    match v
    case Text(s) => Some(Slug(s))
    case Ref(_, _, _) => None
  }

  /** Values that are all objects are all kept by the truthiness filter. */
  lemma {:induction false} ObjectsAllKept(products: seq<PageProduct>)
    requires forall k :: 0 <= k < |products| ==> products[k].category.Ref?
    ensures |CategoryValuesAsWritten(products)| == |products|
    ensures forall k :: 0 <= k < |products| ==> CategoryValuesAsWritten(products)[k] == products[k].category
  {
    if products != [] {
      ObjectsAllKept(products[1..]);
    }
  }

  /** On the list route's data the page as written keeps one category
      entry per product, repeats included, and can compute no slug. */
  lemma ListDataAsWritten(data: seq<Products.ListedProduct>)
    ensures |CategoriesAsWritten(FromList(data))| == |data|
    ensures forall v :: v in CategoriesAsWritten(FromList(data)) ==> SlugAsWritten(v).None?
  {
    var products := FromList(data);
    ObjectsAllKept(products);
    var values := CategoryValuesAsWritten(products);
    forall i, j | 0 <= i < j < |values| ensures At(values, i) != At(values, j) {
      assert values[i].ref == i && values[j].ref == j;
    }
    DedupKeepsDistinct(values);
  }

  /** Two products of one category: the page as written lists the category
      twice, where the names give it once. */
  lemma OneCategoryListedTwice()
    ensures var p := Product("p1", "u1", "PS5", "", 100.0, None, "c1", []);
      var data := [Products.ListedProduct(p, Products.CategoryRef("c1", "Gaming Consoles")),
                   Products.ListedProduct(p.(id := "p2"), Products.CategoryRef("c1", "Gaming Consoles"))];
      |CategoriesAsWritten(FromList(data))| == 2 && Categories(FromList(data)) == ["Gaming Consoles"]
  {
    var p := Product("p1", "u1", "PS5", "", 100.0, None, "c1", []);
    var data := [Products.ListedProduct(p, Products.CategoryRef("c1", "Gaming Consoles")),
                 Products.ListedProduct(p.(id := "p2"), Products.CategoryRef("c1", "Gaming Consoles"))];
    ListDataAsWritten(data);
    var ps := FromList(data);
    assert Label(ps[0].category) == "Gaming Consoles" && Label(ps[1].category) == "Gaming Consoles";
    assert ps[1..][1..] == [] && ps[1..][0] == ps[1];
    assert CategoryNames(ps[1..]) == ["Gaming Consoles"] + CategoryNames([]);
    var names := CategoryNames(ps);
    assert names == ["Gaming Consoles", "Gaming Consoles"];
    assert Filter(names[1..], Differs(names[0])) == [];
    assert Dedup(names) == ["Gaming Consoles"] + Dedup([]);
  }

  // ---------------------------------------------------------------------------
  // The category list by name

  /** `products.map(p => p.category?.name ?? p.category).filter(Boolean)`:
      the category names, empty ones dropped. */
  function CategoryNames(products: seq<PageProduct>): (r: seq<string>)
    ensures forall x :: x in r ==> x != ""
    ensures forall k :: 0 <= k < |products| && Label(products[k].category) != "" ==>
      Label(products[k].category) in r
  {
    if products == [] then []
    else
      var rest := CategoryNames(products[1..]);
      assert forall k :: 1 <= k < |products| ==> products[k] == products[1..][k - 1];
      var name := Label(products[0].category);
      if name != "" then [name] + rest else rest
  }

  /** `categories`: the distinct non-empty category names. */
  function Categories(products: seq<PageProduct>): seq<string> {
    Dedup(CategoryNames(products))
  }

  lemma CategoriesSpec(products: seq<PageProduct>)
    ensures Distinct(Categories(products))
    ensures forall c :: c in Categories(products) <==>
      c != "" && exists k :: 0 <= k < |products| && Label(products[k].category) == c
  {
    DedupSpec(CategoryNames(products));
    CategoryNamesFrom(products);
  }

  lemma {:induction false} CategoryNamesFrom(products: seq<PageProduct>)
    ensures forall c :: c in CategoryNames(products) ==>
      exists k :: 0 <= k < |products| && Label(products[k].category) == c
  {
    if products != [] {
      CategoryNamesFrom(products[1..]);
      forall c | c in CategoryNames(products[1..])
        ensures exists k :: 0 <= k < |products| && Label(products[k].category) == c
      {
        var k :| 0 <= k < |products[1..]| && Label(products[1..][k].category) == c;
        assert Label(products[k + 1].category) == c;
      }
    }
  }

  // ---------------------------------------------------------------------------
  // Selection

  function InSelection(selected: seq<string>): PageProduct -> bool {
    (p: PageProduct) => Label(p.category) in selected
  }

  /** `filteredProducts`. */
  function FilteredProducts(products: seq<PageProduct>, selected: seq<string>): seq<PageProduct> {
    if |selected| == 0 then products else Filter(products, InSelection(selected))
  }

  /** No selection, as after `clearFilters`, shows every product; otherwise
      exactly the products of a selected category, in their order. */
  lemma FilteredProductsSpec(products: seq<PageProduct>, selected: seq<string>)
    ensures selected == [] ==> FilteredProducts(products, selected) == products
    ensures forall p :: p in FilteredProducts(products, selected) <==>
      p in products && (selected == [] || Label(p.category) in selected)
    ensures Subsequence(FilteredProducts(products, selected), products)
  {
    if selected != [] {
      FilterMembers(products, InSelection(selected));
      FilterSubsequence(products, InSelection(selected));
    } else {
      SubsequenceRefl(products);
    }
  }

  lemma {:induction false} SubsequenceRefl<T>(s: seq<T>)
    ensures Subsequence(s, s)
  {
    if s != [] {
      SubsequenceRefl(s[1..]);
    }
  }

  /** `toggleCategory`: remove a selected category, or append an unselected one. */
  function Toggle(selected: seq<string>, category: string): seq<string> {
    if category in selected then Filter(selected, Except(category)) else selected + [category]
  }

  /** Toggling flips exactly that category's membership and never repeats
      a selection. */
  lemma ToggleSpec(selected: seq<string>, category: string)
    requires Distinct(selected)
    ensures Distinct(Toggle(selected, category))
    ensures category in Toggle(selected, category) <==> category !in selected
    ensures forall c :: c != category ==> (c in Toggle(selected, category) <==> c in selected)
  {
    FilterMembers(selected, Except(category));
    if category in selected {
      FilterDistinct(selected, Except(category));
    } else {
      DistinctSnoc(selected, category);
    }
  }

  /** Toggling the same category twice restores the selected set; an
      unselected category comes back to exactly the same list, while a
      selected one moves to the end. */
  lemma ToggleTwice(selected: seq<string>, category: string)
    requires Distinct(selected)
    ensures forall c :: c in Toggle(Toggle(selected, category), category) <==> c in selected
    ensures category !in selected ==> Toggle(Toggle(selected, category), category) == selected
  {
    ToggleSpec(selected, category);
    ToggleSpec(Toggle(selected, category), category);
    if category !in selected {
      FilterAppend(selected, category, Except(category));
      FilterAllPass(selected, Except(category));
    }
  }

  // ---------------------------------------------------------------------------
  // Slugs

  /** `slugMap`: the four category names with a fixed slug. */
  function FixedSlug(name: string): Option<string> {
    if name == "Gaming Consoles" then Some("gaming-consoles")
    else if name == "Mobile Accessories" then Some("mobile-accessories")
    else if name == "PlayStation Games" then Some("playstation-games")
    else if name == "Gaming Accessories" then Some("gaming-accessories")
    else None
  }

  /** The replacement read one character at a time: a non-space is kept,
      a space that starts a run becomes '-', and a space that continues a
      run is dropped. `afterSpace` says whether the previous character was
      whitespace. */
  function Dashed(s: string, afterSpace: bool): string {
    if s == [] then []
    else if !IsSpace(s[0]) then [s[0]] + Dashed(s[1..], false)
    else if afterSpace then Dashed(s[1..], true)
    else "-" + Dashed(s[1..], true)
  }

  /** After a space, the rest of the run produces nothing. */
  lemma {:induction false} DashedSkipsRun(s: string)
    ensures Dashed(s, true) == Dashed(TrimStart(s), true)
  {
    if s != [] && IsSpace(s[0]) {
      DashedSkipsRun(s[1..]);
    }
  }

  /** A run at the front becomes one '-' before the rest. */
  lemma DashedStartRun(s: string)
    requires s != [] && IsSpace(s[0])
    ensures Dashed(s, false) == "-" + Dashed(TrimStart(s), false)
  {
    var t := TrimStart(s);
    DashedSkipsRun(s[1..]);
    assert t == TrimStart(s[1..]);
    assert Dashed(t, true) == Dashed(t, false);
  }

  /** The replacement leaves no whitespace. */
  lemma {:induction false} DashedNoSpace(s: string, afterSpace: bool)
    ensures forall k :: 0 <= k < |Dashed(s, afterSpace)| ==> !IsSpace(Dashed(s, afterSpace)[k])
  {
    if s != [] {
      var rest := Dashed(s[1..], IsSpace(s[0]));
      DashedNoSpace(s[1..], IsSpace(s[0]));
      assert Dashed(s, afterSpace) in {rest, [s[0]] + rest, "-" + rest};
    }
  }

  /** The replacement changes nothing in a string without whitespace. */
  lemma {:induction false} DashedKeeps(s: string, afterSpace: bool)
    ensures (forall k :: 0 <= k < |s| ==> !IsSpace(s[k])) ==> Dashed(s, afterSpace) == s
  {
    if s != [] && forall k :: 0 <= k < |s| ==> !IsSpace(s[k]) {
      assert !IsSpace(s[0]);
      assert forall k :: 0 <= k < |s[1..]| ==> !IsSpace(s[1..][k]) by {
        forall k | 0 <= k < |s[1..]| ensures !IsSpace(s[1..][k]) {
          assert s[1..][k] == s[k + 1];
        }
      }
      DashedKeeps(s[1..], false);
      assert s == [s[0]] + s[1..];
    }
  }

  /** `s.replace(/\s+/g, '-')`: each maximal run of whitespace becomes one
      '-', and every other character stays, in order. */
  function DashRuns(s: string): (r: string)
    ensures r == Dashed(s, false)
    ensures forall k :: 0 <= k < |r| ==> !IsSpace(r[k])
    ensures (forall k :: 0 <= k < |s| ==> !IsSpace(s[k])) ==> r == s
    decreases |s|
  {
    DashedNoSpace(s, false);
    DashedKeeps(s, false);
    if s == [] then []
    else if IsSpace(s[0]) then DashedStartRun(s); "-" + DashRuns(TrimStart(s))
    else [s[0]] + DashRuns(s[1..])
  }

  /** `s` holds no whitespace. */
  predicate NoSpace(s: string) {
    forall k :: 0 <= k < |s| ==> !IsSpace(s[k])
  }

  /** The four fixed slugs hold no whitespace. */
  lemma FixedSlugsHaveNoSpace()
    ensures NoSpace("gaming-consoles") && NoSpace("mobile-accessories")
    ensures NoSpace("playstation-games") && NoSpace("gaming-accessories")
  {
  }

  lemma FixedSlugHasNoSpace(name: string)
    requires FixedSlug(name).Some?
    ensures NoSpace(FixedSlug(name).value)
  {
    FixedSlugsHaveNoSpace();
  }

  /** `slugMap[category] || category.toLowerCase().replace(/\s+/g, '-')`. */
  function Slug(name: string): (r: string)
    ensures forall k :: 0 <= k < |r| ==> !IsSpace(r[k])
  {
    match FixedSlug(name)
    case Some(s) => FixedSlugHasNoSpace(name); s
    case None => DashRuns(ToLower(name))
  }

  lemma LowerKeepsSpaces(s: string)
    ensures forall k :: 0 <= k < |s| ==> (IsSpace(ToLower(s)[k]) <==> IsSpace(s[k]))
  {
  }

  /** A slug made by the general rule is its own slug: it has no
      whitespace and no upper-case letter, and no fixed name is lower-case. */
  lemma SlugIdempotent(name: string)
    requires FixedSlug(name).None?
    ensures Slug(Slug(name)) == Slug(name)
  {
    var s := DashRuns(ToLower(name));
    LowerIdempotent(name);
    LowerDashRuns(ToLower(name));
    LowerIsNotFixed(s);
    assert Slug(s) == DashRuns(ToLower(s));
  }

  /** Every fixed name starts with a capital letter, so no lower-case
      string is one of them. */
  lemma LowerIsNotFixed(s: string)
    requires ToLower(s) == s
    ensures FixedSlug(s).None?
  {
    if s != [] {
      assert s[0] == LowerChar(s[0]);
      assert !('A' <= s[0] <= 'Z');
    }
  }

  lemma LowerIdempotent(s: string)
    ensures ToLower(ToLower(s)) == ToLower(s)
  {
  }

  /** Lower-casing a dashed lower-case string changes nothing. */
  lemma {:induction false} LowerDashRuns(s: string)
    requires ToLower(s) == s
    ensures ToLower(DashRuns(s)) == DashRuns(s)
    decreases |s|
  {
    if s != [] {
      if IsSpace(s[0]) {
        var t := TrimStart(s);
        LowerSuffix(s, |s| - |t|);
        LowerDashRuns(t);
        LowerPrepend('-', DashRuns(t));
      } else {
        LowerSuffix(s, 1);
        LowerDashRuns(s[1..]);
        assert LowerChar(s[0]) == ToLower(s)[0];
        LowerPrepend(s[0], DashRuns(s[1..]));
      }
    }
  }

  /** A suffix of a lower-case string is lower-case. */
  lemma LowerSuffix(s: string, i: nat)
    requires ToLower(s) == s && i <= |s|
    ensures ToLower(s[i..]) == s[i..]
  {
    var t := s[i..];
    var l := ToLower(t);
    forall k | 0 <= k < |t| ensures l[k] == t[k] {
      assert t[k] == s[i + k];
      assert ToLower(s)[i + k] == LowerChar(s[i + k]);
    }
  }

  /** A lower-case character before a lower-case string keeps it lower-case. */
  lemma LowerPrepend(c: char, u: string)
    requires LowerChar(c) == c && ToLower(u) == u
    ensures ToLower([c] + u) == [c] + u
  {
    var w := [c] + u;
    var l := ToLower(w);
    forall k | 0 <= k < |w| ensures l[k] == w[k] {
      if k > 0 {
        assert w[k] == u[k - 1];
        assert ToLower(u)[k - 1] == LowerChar(u[k - 1]);
      }
    }
  }
}
