/** The seller's add-product page, app/seller/page.jsx: who may use it, the
    four image slots, the checks the page runs before posting the form, the
    reset after a successful post, and adding a category from the page. */
module SellerPage {
  import opened Common
  import opened Products

  /** `user && ["seller", "admin"].includes(user.role)`; everyone else gets
      the Access Denied view. */
  predicate CanUseSellerPage(session: Option<Session>) {
    session.Some? && IsStaff(session.value.role)
  }

  // ---------------------------------------------------------------------------
  // Image slots

  /** One entry of the `files` array: a hole (never assigned), an explicit
      `undefined` (a cancelled file dialog, or a hole copied by a spread),
      or a chosen file. */
  datatype Slot = Hole | Missing | Chosen(file: string)

  /** `[...files]`: a spread copies holes as explicit `undefined`. */
  function Spread(files: seq<Slot>): (r: seq<Slot>)
    ensures |r| == |files|
    ensures forall k :: 0 <= k < |r| ==> r[k] == (if files[k].Hole? then Missing else files[k])
  {
    if files == [] then [] else [if files[0].Hole? then Missing else files[0]] + Spread(files[1..])
  }

  /** The slot `chosen` ends up in: the dialog's first file, or `undefined`. */
  function SlotOf(chosen: Option<string>): Slot {
    if chosen.Some? then Chosen(chosen.value) else Missing
  }

  /** The `onChange` of slot `index`: copy the array and assign that index;
      assigning past the end leaves holes in between. */
  function SetSlot(files: seq<Slot>, index: nat, chosen: Option<string>): (r: seq<Slot>)
    ensures |r| == if index < |files| then |files| else index + 1
    ensures r[index] == SlotOf(chosen)
    ensures forall k :: 0 <= k < |files| && k != index ==>
      r[k] == (if files[k].Hole? then Missing else files[k])
    ensures forall k :: |files| <= k < index ==> r[k] == Hole
  {
    var copy := Spread(files);
    if index < |copy| then copy[index := SlotOf(chosen)]
    else copy + seq(index - |copy|, _ => Hole) + [SlotOf(chosen)]
  }

  /** Choosing a file keeps every file already chosen in another slot. */
  lemma ChoosingKeepsOtherFiles(files: seq<Slot>, index: nat, chosen: Option<string>, k: nat)
    requires k < |files| && k != index && files[k].Chosen?
    ensures SetSlot(files, index, chosen)[k] == files[k]
  {
  }

  /** The four slots never grow past four. */
  lemma SlotsStayWithinFour(files: seq<Slot>, index: nat, chosen: Option<string>)
    requires |files| <= 4 && index < 4
    ensures |SetSlot(files, index, chosen)| <= 4
  {
  }

  /** An entry `forEach` visits: anything but a hole. */
  predicate Visited(s: Slot) {
    !s.Hole?
  }

  /** `files.forEach(file => formData.append("images", file))`: `forEach`
      skips holes and visits explicit `undefined` entries, one form entry
      per visited slot, in slot order; the first entry sent is the one the
      product's first image comes from. */
  function SentImages(files: seq<Slot>): (r: seq<Slot>)
    ensures forall s :: s in r <==> s in files && !s.Hole?
    ensures Subsequence(r, files)
    ensures |r| == Count(files, Visited)
    ensures files != [] && files[0].Chosen? ==> r != [] && r[0] == files[0]
  {
    FilterMembers(files, Visited);
    FilterSubsequence(files, Visited);
    CountIsFilterLength(files, Visited);
    Filter(files, Visited)
  }

  // ---------------------------------------------------------------------------
  // Submitting the form

  /** `handleSubmit`'s checks in order; the first failure is shown. */
  function SubmitError(files: seq<Slot>, category: string, price: FormNumber, offerPrice: FormNumber,
                       name: string, description: string): (r: Option<string>)
    ensures r.None? <==>
      files != [] && files[0].Chosen? && category != "" && !BadPrice(price) &&
      !OfferAbovePrice(offerPrice, price) && !IsBlank(name) && !IsBlank(description)
  {
    if files == [] || !files[0].Chosen? then Some("Please upload at least one product image")
    else if category == "" then Some("Please select a category")
    else if BadPrice(price) then Some("Please enter a valid product price")
    else if OfferAbovePrice(offerPrice, price) then Some("Offer price cannot be greater than the original price")
    else if IsBlank(name) || IsBlank(description) then Some("Name and description are required")
    else None
  }

  /** A form the page lets through also passes every field check of the
      add-product route, whatever the uploaded images' URLs are, and the
      page sends at least one image entry. */
  lemma PageAcceptedPassesRoute(files: seq<Slot>, category: string, price: FormNumber, offerPrice: FormNumber,
                                name: string, description: string, urls: seq<string>)
    requires SubmitError(files, category, price, offerPrice, name, description).None?
    requires urls != []
    ensures FormError(ProductForm(Some(name), Some(description), Some(category), price, offerPrice, urls)).None?
    ensures SentImages(files) != [] && SentImages(files)[0] == files[0]
  {
  }

  /** The page's check order differs from the route's: a form with no image
      and a blank name is refused for the image on the page and for the
      name by the route. */
  lemma PageChecksImageFirst(category: string, price: FormNumber, offerPrice: FormNumber, description: string)
    ensures SubmitError([], category, price, offerPrice, "", description) ==
      Some("Please upload at least one product image")
    ensures FormError(ProductForm(Some(""), Some(description), Some(category), price, offerPrice, [])) ==
      Some("Product name is required")
  {
  }

  /** The page's form state. Prices are held as what `Number` makes of the
      typed text; the empty field is `Blank`. */
  class ProductFormState {
    var files: seq<Slot>
    var name: string
    var description: string
    var category: string
    var price: FormNumber
    var offerPrice: FormNumber
    var newCategory: string
    var showAddCategory: bool

    constructor ()
      ensures files == [] && name == "" && description == "" && category == ""
      ensures price == Blank && offerPrice == Blank
      ensures newCategory == "" && !showAddCategory
    {
      files := [];
      name := "";
      description := "";
      category := "";
      price := Blank;
      offerPrice := Blank;
      newCategory := "";
      showAddCategory := false;
    }

    /** Whether every product field is back at its initial value. */
    predicate IsReset()
      reads this
    {
      files == [] && name == "" && description == "" && category == "" &&
      price == Blank && offerPrice == Blank
    }

    /** The file input of slot `index` (one of four). */
    method ChooseFile(index: nat, chosen: Option<string>)
      requires index < 4
      modifies this`files
      ensures files == SetSlot(old(files), index, chosen)
    {
      files := SetSlot(files, index, chosen);
    }

    /** `handleSubmit`: the checks run first and a failure sends nothing;
        `replyOk` is the route's answer to the post. Only a successful
        reply resets the form. */
    method Submit(replyOk: bool) returns (error: Option<string>, sent: bool)
      modifies this
      ensures error == SubmitError(old(files), old(category), old(price), old(offerPrice), old(name), old(description))
      ensures sent <==> error.None?
      ensures sent && replyOk ==> IsReset()
      ensures !(sent && replyOk) ==>
        files == old(files) && name == old(name) && description == old(description) &&
        category == old(category) && price == old(price) && offerPrice == old(offerPrice)
      ensures newCategory == old(newCategory) && showAddCategory == old(showAddCategory)
    {
      error := SubmitError(files, category, price, offerPrice, name, description);
      if error.Some? {
        return error, false;
      }
      sent := true;
      if replyOk {
        files := [];
        name := "";
        description := "";
        category := "";
        price := Blank;
        offerPrice := Blank;
      }
    }

    /** `handleAddCategory`: a blank name sends nothing; otherwise the
        trimmed name is posted. On success (`createdId`, the new category's
        id) the input is cleared, the panel closed and the new category
        selected. */
    method HandleAddCategory(createdId: Option<string>) returns (posted: Option<string>)
      modifies this
      ensures posted == if IsBlank(old(newCategory)) then None else Some(Trim(old(newCategory)))
      ensures posted.Some? ==> !IsBlank(posted.value)
      ensures posted.Some? && createdId.Some? ==>
        newCategory == "" && !showAddCategory && category == createdId.value
      ensures !(posted.Some? && createdId.Some?) ==>
        newCategory == old(newCategory) && showAddCategory == old(showAddCategory) && category == old(category)
      ensures files == old(files) && name == old(name) && description == old(description)
      ensures price == old(price) && offerPrice == old(offerPrice)
    {
      if IsBlank(newCategory) {
        return None;
      }
      posted := Some(Trim(newCategory));
      assert !IsSpace(posted.value[0]);
      if createdId.Some? {
        newCategory := "";
        showAddCategory := false;
        category := createdId.value;
      }
    }
  }
}
