/** The SEO record of the product listing pages,
    app/api/product-pages-seo/route.js: fetched by its identifier, and
    created with defaults on first use; and overwritten field by field by
    staff with whatever the body carries, the identifier included. */
module PagesSeo {
  import opened Common

  const Identifier := "product-pages-seo"

  /** A record: its identifier, the page fields, and who last saved it. */
  datatype PagesSeoRecord = PagesSeoRecord(
    identifier: string,
    title: Option<string>,
    description: Option<string>,
    keywords: Option<seq<string>>,
    updatedBy: Option<string>)

  /** The fields a POST body may carry; an absent field is left as it is.
      Nothing stops a body from carrying `identifier`. */
  datatype PagesSeoPatch = PagesSeoPatch(
    identifier: Option<string>,
    title: Option<string>,
    description: Option<string>,
    keywords: Option<seq<string>>)

  /** The record GET creates when there is none. */
  function DefaultRecord(): (r: PagesSeoRecord)
    ensures r.identifier == Identifier && r.updatedBy.None?
    ensures r.title == Some("Our Products | Gaming Hub")
    ensures r.description == Some("Browse our collection of gaming products")
    ensures r.keywords == Some(["gaming", "products", "online store"])
  {
    PagesSeoRecord(Identifier, Some("Our Products | Gaming Hub"),
      Some("Browse our collection of gaming products"),
      Some(["gaming", "products", "online store"]), None)
  }

  /** The document an upsert starts from: only the queried identifier. */
  function Blank(): PagesSeoRecord {
    PagesSeoRecord(Identifier, None, None, None, None)
  }

  /** `{...data, updatedBy}` applied to `current`: given fields replace the
      stored ones, absent ones stay, and the editor is written last. */
  function Applied(current: PagesSeoRecord, patch: PagesSeoPatch, editor: Option<string>): (r: PagesSeoRecord)
    ensures r.identifier == if patch.identifier.Some? then patch.identifier.value else current.identifier
    ensures r.title == if patch.title.Some? then patch.title else current.title
    ensures r.description == if patch.description.Some? then patch.description else current.description
    ensures r.keywords == if patch.keywords.Some? then patch.keywords else current.keywords
    ensures r.updatedBy == editor
  {
    PagesSeoRecord(
      if patch.identifier.Some? then patch.identifier.value else current.identifier,
      if patch.title.Some? then patch.title else current.title,
      if patch.description.Some? then patch.description else current.description,
      if patch.keywords.Some? then patch.keywords else current.keywords,
      editor)
  }

  /** Saving the same body twice leaves the record as the first save did. */
  lemma ApplyIdempotent(current: PagesSeoRecord, patch: PagesSeoPatch, editor: Option<string>)
    ensures Applied(Applied(current, patch, editor), patch, editor) == Applied(current, patch, editor)
  {
  }

  /** `session.user.id || session.user.email`. */
  function Editor(session: Session): Option<string> {
    if Truthy(session.id) then session.id else session.email
  }

  /** `findOne({identifier})`: the first record with that identifier. */
  function FindRecord(records: seq<PagesSeoRecord>, identifier: string): (r: Option<nat>)
    ensures r.Some? ==> r.value < |records| && records[r.value].identifier == identifier
    ensures r.Some? ==> forall k :: 0 <= k < r.value ==> records[k].identifier != identifier
    ensures r.None? <==> forall k :: 0 <= k < |records| ==> records[k].identifier != identifier
  {
    if records == [] then None
    else if records[0].identifier == identifier then Some(0)
    else match FindRecord(records[1..], identifier)
      case None => None
      case Some(k) => Some(k + 1)
  }

  /** The collection of records. */
  class PagesSeoStore {
    var records: seq<PagesSeoRecord>

    /** At most one record carries the fixed identifier: the routes only
        ever create one when none is found. */
    ghost predicate Valid()
      reads this
    {
      forall i, j :: 0 <= i < j < |records| && records[i].identifier == Identifier ==>
        records[j].identifier != Identifier
    }

    constructor ()
      ensures Valid() && records == []
    {
      records := [];
    }

    /** GET: the record with the fixed identifier, created with the
        defaults when there is none. */
    method Get() returns (r: PagesSeoRecord)
      requires Valid()
      modifies this
      ensures Valid()
      ensures match FindRecord(old(records), Identifier)
        case Some(i) => r == old(records)[i] && records == old(records)
        case None => r == DefaultRecord() && records == old(records) + [r]
      ensures r.identifier == Identifier
    {
      var found := FindRecord(records, Identifier);
      if found.Some? {
        r := records[found.value];
      } else {
        r := DefaultRecord();
        records := records + [r];
      }
    }

    /** POST: staff only; `findOneAndUpdate` with upsert patches the record
        with the fixed identifier, or a fresh one, and stamps its editor. */
    method Save(session: Option<Session>, patch: PagesSeoPatch) returns (r: Outcome<PagesSeoRecord>)
      requires Valid()
      modifies this
      ensures Valid()
      ensures !(session.Some? && IsStaff(session.value.role)) ==>
        r == Failure(401, "Unauthorized") && records == old(records)
      ensures session.Some? && IsStaff(session.value.role) ==>
        match FindRecord(old(records), Identifier)
        case Some(i) =>
          var saved := Applied(old(records)[i], patch, Editor(session.value));
          r == Success(saved) && records == old(records)[i := saved]
        case None =>
          var saved := Applied(Blank(), patch, Editor(session.value));
          r == Success(saved) && records == old(records) + [saved]
    {
      if session.None? || !IsStaff(session.value.role) {
        return Failure(401, "Unauthorized");
      }
      var editor := Editor(session.value);
      var found := FindRecord(records, Identifier);
      var saved;
      if found.Some? {
        saved := Applied(records[found.value], patch, editor);
        records := records[found.value := saved];
      } else {
        saved := Applied(Blank(), patch, editor);
        records := records + [saved];
      }
      r := Success(saved);
    }
  }

  /** A save followed by a fetch returns what was saved, unless the body
      moved the record to another identifier: then the fetch finds nothing
      and creates the defaults again. */
  method SaveThenGet(store: PagesSeoStore, session: Session, patch: PagesSeoPatch)
    returns (saved: Outcome<PagesSeoRecord>, fetched: PagesSeoRecord)
    requires store.Valid() && IsStaff(session.role)
    modifies store
    ensures saved.Success?
    ensures patch.identifier.None? || patch.identifier.value == Identifier ==> fetched == saved.value
    ensures patch.identifier.Some? && patch.identifier.value != Identifier ==> fetched == DefaultRecord()
  {
    ghost var before := store.records;
    saved := store.Save(Some(session), patch);
    ghost var after := store.records;
    ghost var found := FindRecord(before, Identifier);
    ghost var i := if found.Some? then found.value else |before|;
    if patch.identifier.None? || patch.identifier.value == Identifier {
      assert after[i].identifier == Identifier;
      assert forall k :: 0 <= k < i ==> after[k].identifier != Identifier;
    } else {
      assert forall k :: 0 <= k < |after| ==> after[k].identifier != Identifier;
    }
    fetched := store.Get();
  }
}
