/** The product SEO editor, app/seller/productseo/page.jsx: who is let in,
    the keyword list, the field handlers (top level and the two nested
    groups) and the guard before saving. Each handler returns the next
    form state, as the page's state updates do. */
module ProductSeoPage {
  import opened Common

  /** Where the page's access check sends the visitor. */
  datatype Access = Waiting | ToLogin | ToHome | ToProductList | Allowed

  /** `status` is the session's loading state; `productId` the URL's. */
  function AccessFor(loading: bool, session: Option<Session>, productId: Option<string>): (a: Access)
    ensures a == Allowed <==>
      !loading && session.Some? && IsStaff(session.value.role) && Truthy(productId)
    ensures a == ToHome <==> !loading && session.Some? && !IsStaff(session.value.role)
  {
    if loading then Waiting
    else if session.None? then ToLogin
    else if !IsStaff(session.value.role) then ToHome
    else if !Truthy(productId) then ToProductList
    else Allowed
  }

  /** The form: top-level text fields by name, the keyword list, and the
      `openGraph` and `structuredData` groups by field name. */
  datatype SeoForm = SeoForm(
    fields: map<string, string>,
    keywords: seq<string>,
    openGraph: map<string, string>,
    structuredData: map<string, string>)

  // ---------------------------------------------------------------------------
  // Keywords

  /** `addKeyword`: the trimmed input is appended when it is non-empty and
      not yet listed, and then the input is cleared; otherwise nothing
      changes. Returns the new list and the new input. The list only ever
      grows at its end, never repeats a keyword, and afterwards holds
      exactly the old keywords plus the non-empty trimmed input. */
  function AddKeyword(keywords: seq<string>, input: string): (r: (seq<string>, string))
    ensures |keywords| <= |r.0| <= |keywords| + 1 && r.0[..|keywords|] == keywords
    ensures Distinct(keywords) ==> Distinct(r.0)
    ensures forall k :: k in r.0 <==> k in keywords || (k == Trim(input) && Trim(input) != [])
    ensures |r.0| > |keywords| ==> r.1 == "" && r.0[|keywords|] == Trim(input)
    ensures |r.0| == |keywords| ==> r == (keywords, input)
  {
    var t := Trim(input);
    AppendKeepsDistinct(keywords, t);
    if t != [] && t !in keywords then (keywords + [t], "") else (keywords, input)
  }

  /** Appending a value not yet listed keeps a list free of repeats. */
  lemma AppendKeepsDistinct(keywords: seq<string>, t: string)
    ensures Distinct(keywords) && t !in keywords ==> Distinct(keywords + [t])
  {
    if Distinct(keywords) && t !in keywords {
      DistinctSnoc(keywords, t);
    }
  }

  /** `keywords.filter((_, idx) => idx !== i)`. */
  function RemoveKeyword(keywords: seq<string>, i: nat): (r: seq<string>)
    ensures |r| == if i < |keywords| then |keywords| - 1 else |keywords|
    ensures i >= |keywords| ==> r == keywords
    ensures forall k :: 0 <= k < |r| && k < i ==> r[k] == keywords[k]
    ensures forall k :: i <= k < |r| ==> r[k] == keywords[k + 1]
    decreases keywords
  {
    if keywords == [] then []
    else if i == 0 then keywords[1..]
    else
      var rest := RemoveKeyword(keywords[1..], i - 1);
      var r := [keywords[0]] + rest;
      assert forall k :: 1 <= k < |r| ==> r[k] == rest[k - 1];
      assert forall j :: 0 <= j < |keywords| - 1 ==> keywords[1..][j] == keywords[j + 1];
      r
  }

  /** Removing the keyword just added gives back the list before it. */
  lemma RemoveUndoesAdd(keywords: seq<string>, input: string)
    requires Trim(input) != [] && Trim(input) !in keywords
    ensures RemoveKeyword(AddKeyword(keywords, input).0, |keywords|) == keywords
  {
    var s := AddKeyword(keywords, input).0;
    assert Trim(input) in s;
    RemoveLast(s);
  }

  /** Removing the last keyword drops just that one. */
  lemma RemoveLast(s: seq<string>)
    requires s != []
    ensures RemoveKeyword(s, |s| - 1) == s[..|s| - 1]
  {
    var r := RemoveKeyword(s, |s| - 1);
    assert forall k :: 0 <= k < |r| ==> r[k] == s[k];
  }

  /** Removing keeps the list free of repeats. */
  lemma RemoveKeepsDistinct(keywords: seq<string>, i: nat)
    requires Distinct(keywords)
    ensures Distinct(RemoveKeyword(keywords, i))
  {
    var r := RemoveKeyword(keywords, i);
    forall a, b | 0 <= a < b < |r| ensures At(r, a) != At(r, b) {
      var a' := if a < i then a else a + 1;
      var b' := if b < i then b else b + 1;
      assert r[a] == keywords[a'] && r[b] == keywords[b'];
      DistinctApart(keywords, a', b');
    }
  }

  // ---------------------------------------------------------------------------
  // Field handlers

  /** The three `[name]: value` handlers. */
  function HandleChange(f: SeoForm, name: string, value: string): SeoForm {
    f.(fields := f.fields[name := value])
  }

  function HandleOpenGraphChange(f: SeoForm, name: string, value: string): SeoForm {
    f.(openGraph := f.openGraph[name := value])
  }

  function HandleStructuredDataChange(f: SeoForm, name: string, value: string): SeoForm {
    f.(structuredData := f.structuredData[name := value])
  }

  /** `b` is `a` with the single entry `name` set to `value`. */
  ghost predicate OneFieldChanged(a: map<string, string>, b: map<string, string>, name: string, value: string) {
    name in b && b[name] == value &&
    (forall k :: k != name ==> (k in b <==> k in a)) &&
    (forall k :: k != name && k in a ==> b[k] == a[k])
  }

  /** Each nested handler changes exactly one field of its group and leaves
      the rest of the form alone. */
  lemma NestedHandlersChangeOneField(f: SeoForm, name: string, value: string)
    ensures var g := HandleOpenGraphChange(f, name, value);
      OneFieldChanged(f.openGraph, g.openGraph, name, value) &&
      g.fields == f.fields && g.keywords == f.keywords && g.structuredData == f.structuredData
    ensures var g := HandleStructuredDataChange(f, name, value);
      OneFieldChanged(f.structuredData, g.structuredData, name, value) &&
      g.fields == f.fields && g.keywords == f.keywords && g.openGraph == f.openGraph
    ensures var g := HandleChange(f, name, value);
      OneFieldChanged(f.fields, g.fields, name, value) &&
      g.keywords == f.keywords && g.openGraph == f.openGraph && g.structuredData == f.structuredData
  {
  }

  // ---------------------------------------------------------------------------
  // Saving

  /** What the page posts: the form with `productId` taken from the URL. */
  datatype Submission = Submission(productId: Option<string>, form: SeoForm)

  /** A top-level field JavaScript reads as true. */
  predicate Filled(f: SeoForm, name: string) {
    name in f.fields && f.fields[name] != ""
  }

  /** `handleSubmit`: nothing is posted unless title and description are
      filled; the URL's `productId` replaces any in the form. */
  function SubmitFor(f: SeoForm, urlProductId: Option<string>): (r: Option<Submission>)
    ensures r.Some? <==> Filled(f, "title") && Filled(f, "description")
    ensures r.Some? ==> r.value.productId == urlProductId && "productId" !in r.value.form.fields
    ensures r.Some? ==> forall k :: k != "productId" ==>
      (k in r.value.form.fields <==> k in f.fields) &&
      (k in f.fields ==> r.value.form.fields[k] == f.fields[k])
    ensures r.Some? ==> (r.value.form.keywords == f.keywords &&
      r.value.form.openGraph == f.openGraph && r.value.form.structuredData == f.structuredData)
  {
    if !Filled(f, "title") || !Filled(f, "description") then None
    else Some(Submission(urlProductId, f.(fields := f.fields - {"productId"})))
  }
}
