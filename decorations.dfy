/** The decoration endpoints: create with an uploaded image, list, update
    and delete. A stored image is a pair of the hosted URL and the media
    host's deletion handle; the two are always kept or replaced together,
    and a handle that is replaced or whose record is deleted is sent to the
    host's `destroy`. The host is modelled by the log of destroy requests
    and by a flag telling whether the request fails. */
module Decorations {
  import opened JsValues

  type DecorationId = nat

  /** The text fields of the create and update forms. Prices and rating
      are kept as submitted. */
  datatype DecorationForm = DecorationForm(
    title: Raw,
    price: Raw,
    originalPrice: Raw,
    rating: Raw,
    category: Raw)

  datatype Decoration = Decoration(
    title: Raw,
    price: Raw,
    originalPrice: Raw,
    rating: Raw,
    category: Raw,
    image: string,
    imagePublicId: Option<string>)

  /** `title && price && originalPrice && rating && category` */
  predicate FieldsPresent(f: DecorationForm) {
    Truthy(f.title) && Truthy(f.price) && Truthy(f.originalPrice) && Truthy(f.rating) && Truthy(f.category)
  }

  /** The deletion handle of a record, when it holds a non-empty one. */
  function Handle(d: Decoration): Option<string> {
    if d.imagePublicId.Some? && d.imagePublicId.value != "" then d.imagePublicId else None
  }

  function NewDecoration(f: DecorationForm, file: Upload): (d: Decoration)
    ensures d.image == file.path && d.imagePublicId == Some(file.filename)
    ensures d.title == f.title && d.price == f.price && d.originalPrice == f.originalPrice
    ensures d.rating == f.rating && d.category == f.category
  {
    Decoration(f.title, f.price, f.originalPrice, f.rating, f.category, file.path, Some(file.filename))
  }

  /** The record after an update: the form's fields replace the old ones;
      the image pair is the uploaded one, or the old one when no file was
      sent. */
  function UpdatedDecoration(prev: Decoration, f: DecorationForm, file: Option<Upload>): (d: Decoration)
    ensures d.title == f.title && d.price == f.price && d.originalPrice == f.originalPrice
    ensures d.rating == f.rating && d.category == f.category
    ensures file.None? ==> d.image == prev.image && d.imagePublicId == prev.imagePublicId
    ensures file.Some? ==> d.image == file.value.path && d.imagePublicId == Some(file.value.filename)
  {
    var (image, handle) :=
      if file.Some? then (file.value.path, Some(file.value.filename)) else (prev.image, prev.imagePublicId);
    Decoration(f.title, f.price, f.originalPrice, f.rating, f.category, image, handle)
  }

  /** The handle an update must destroy: the old one, when a new image
      replaces it and it is non-empty. */
  function RetiredHandle(prev: Decoration, file: Option<Upload>): (h: Option<string>)
    ensures h.Some? <==> file.Some? && Handle(prev).Some?
    ensures h.Some? ==> h == prev.imagePublicId
  {
    if file.Some? then Handle(prev) else None
  }

  /** The schema requires the image URL. */
  predicate SchemaAccepts(d: Decoration) {
    d.image != ""
  }

  class DecorationStore {
    var decorations: map<DecorationId, Decoration>
    var nextId: DecorationId
    /** Every deletion handle sent to the media host, in order. */
    var destroyed: seq<string>

    ghost predicate Valid()
      reads this
    {
      forall id :: id in decorations ==> id < nextId
    }

    constructor ()
      ensures Valid() && decorations == map[] && destroyed == []
    {
      decorations := map[];
      nextId := 0;
      destroyed := [];
    }

    /** POST / */
    method Create(f: DecorationForm, file: Option<Upload>) returns (status: int, id: Option<DecorationId>)
      requires Valid()
      modifies this
      ensures Valid()
      ensures destroyed == old(destroyed)
      ensures !FieldsPresent(f) || file.None? ==> status == 400
      ensures FieldsPresent(f) && file.Some? && !SchemaAccepts(NewDecoration(f, file.value)) ==> status == 500
      ensures status != 201 ==> id.None? && decorations == old(decorations)
      ensures FieldsPresent(f) && file.Some? && SchemaAccepts(NewDecoration(f, file.value)) ==>
        && status == 201 && id.Some? && id.value !in old(decorations)
        && decorations == old(decorations)[id.value := NewDecoration(f, file.value)]
    {
      if !FieldsPresent(f) || file.None? {
        return 400, None;
      }
      var d := NewDecoration(f, file.value);
      if !SchemaAccepts(d) {
        return 500, None;
      }
      decorations := decorations[nextId := d];
      id := Some(nextId);
      nextId := nextId + 1;
      status := 201;
    }

    /** GET / */
    method All() returns (found: map<DecorationId, Decoration>)
      ensures found == decorations
    {
      found := decorations;
    }

    /** PUT /:id: the field check comes before the lookup. When a new image
        is uploaded the old handle, if any, is destroyed first; a failing
        destroy answers 500 and leaves the record as it was. */
    method Update(id: DecorationId, f: DecorationForm, file: Option<Upload>, destroyFails: bool)
      returns (status: int)
      requires Valid()
      modifies this
      ensures Valid()
      ensures !FieldsPresent(f) ==> status == 400 && destroyed == old(destroyed)
      ensures FieldsPresent(f) && id !in old(decorations) ==> status == 404 && destroyed == old(destroyed)
      ensures status != 200 ==> decorations == old(decorations)
      ensures FieldsPresent(f) && id in old(decorations) ==>
        var retired := RetiredHandle(old(decorations)[id], file);
        && destroyed == (if retired.Some? then old(destroyed) + [retired.value] else old(destroyed))
        && (retired.Some? && destroyFails ==> status == 500)
        && (retired.None? || !destroyFails ==>
              status == 200
              && decorations == old(decorations)[id := UpdatedDecoration(old(decorations)[id], f, file)])
    {
      if !FieldsPresent(f) {
        return 400;
      }
      if id !in decorations {
        return 404;
      }
      var existing := decorations[id];
      var retired := RetiredHandle(existing, file);
      if retired.Some? {
        destroyed := destroyed + [retired.value];
        if destroyFails {
          return 500;
        }
      }
      decorations := decorations[id := UpdatedDecoration(existing, f, file)];
      status := 200;
    }

    /** DELETE /:id: the record's handle, if any, is destroyed before the
        record is removed; a failing destroy answers 500 and the record
        remains. */
    method Delete(id: DecorationId, destroyFails: bool) returns (status: int)
      requires Valid()
      modifies this
      ensures Valid()
      ensures id !in old(decorations) ==>
        status == 404 && decorations == old(decorations) && destroyed == old(destroyed)
      ensures id in old(decorations) ==>
        var h := Handle(old(decorations)[id]);
        && destroyed == (if h.Some? then old(destroyed) + [h.value] else old(destroyed))
        && (h.Some? && destroyFails ==> status == 500 && decorations == old(decorations))
        && (h.None? || !destroyFails ==> status == 200 && decorations == old(decorations) - {id})
    {
      if id !in decorations {
        return 404;
      }
      var h := Handle(decorations[id]);
      if h.Some? {
        destroyed := destroyed + [h.value];
        if destroyFails {
          return 500;
        }
      }
      decorations := decorations - {id};
      status := 200;
    }
  }
}
