/** The menu-list normaliser of the list-save endpoint: it rewrites each
    submitted category (and each of its items) into the canonical shape,
    keeping every other field of the submission (JavaScript object spread).
    A normalised category therefore has the same shape as a submitted one,
    which is what lets a saved list be submitted and normalised again.

    Evaluation can throw a `TypeError` (a truthy image that is not a
    string has no `startsWith`; a truthy item list or category list that
    is not an array has no `map`); such a result is `None`. */
module MenuNormalizer {
  import opened JsValues

  /** The asset host's placeholder image, used for every image that is not
      a URL starting with `http`. The literal is written as a concatenation
      so that its `http` prefix is visible to the verifier, which does not
      unfold a literal this long character by character. */
  const DefaultImage: string :=
    "http" + "s://res.cloudinary.com/your_cloud_name/image/upload/v1/katbox_restaurants/default-image.jpg"

  /** A field that a client may send either as a scalar or as an array. */
  datatype Listing<T> = Scalar(v: Raw) | Array(elems: seq<T>)

  /** A menu item as submitted; `rest` holds every other field it carries. */
  datatype Item = Item(name: Raw, image: Raw, selected: Raw, rest: map<string, Raw>)

  /** A category as submitted. `maxSelection` and `selectedCount` are the
      legacy generic cap and count; `countVegSelectedCount` is the field the
      veg count is actually read from. */
  datatype Category = Category(
    name: Raw,
    image: Raw,
    maxVegSelection: Raw,
    maxNonVegSelection: Raw,
    maxSelection: Raw,
    vegSelectedCount: Raw,
    countVegSelectedCount: Raw,
    selectedCount: Raw,
    nonVegSelectedCount: Raw,
    vegItems: Listing<Item>,
    nonVegItems: Listing<Item>,
    rest: map<string, Raw>)

  /** The request body of the list-save endpoint. */
  datatype MenuList = MenuList(categories: Listing<Category>, isSubmitted: Raw)

  predicate ListingTruthy<T>(l: Listing<T>) {
    match l
    case Scalar(v) => Truthy(v)
    case Array(_) => true
  }

  predicate IsHttpUrl(v: Raw) {
    v.Str? && StartsWith(v.s, "http")
  }

  /** A selection cap: `Math.max(1, parseInt(v) || 1)`. */
  function Cap(v: Raw): (r: int)
    ensures r >= 1
    ensures ParseInt(v).Some? && ParseInt(v).value >= 1 ==> r == ParseInt(v).value
    ensures (ParseInt(v).None? || ParseInt(v).value < 1) ==> r == 1
  {
    var p := ParseInt(v);
    var k := if p.Some? && p.value != 0 then p.value else 1;
    if k < 1 then 1 else k
  }

  /** A selected count: `Math.max(0, parseInt(v) || 0)`. */
  function Count(v: Raw): (r: int)
    ensures r >= 0
    ensures ParseInt(v).Some? && ParseInt(v).value >= 0 ==> r == ParseInt(v).value
    ensures (ParseInt(v).None? || ParseInt(v).value < 0) ==> r == 0
  {
    var p := ParseInt(v);
    var k := if p.Some? then p.value else 0;
    if k < 0 then 0 else k
  }

  /** `image && image.startsWith('http') ? image : DefaultImage`. */
  function NormalizeImage(v: Raw): (r: Option<Raw>)
    ensures r.None? <==> Truthy(v) && !v.Str?
    ensures r.Some? ==> IsHttpUrl(r.value)
    ensures r.Some? && IsHttpUrl(v) ==> r.value == v
    ensures r.Some? && !IsHttpUrl(v) ==> r.value == Str(DefaultImage)
  {
    assert StartsWith(DefaultImage, "http");
    if !Truthy(v) then Some(Str(DefaultImage))
    else if !v.Str? then None
    else if StartsWith(v.s, "http") then Some(v)
    else Some(Str(DefaultImage))
  }

  function NormalizeItem(it: Item): (r: Option<Item>)
    ensures r.Some? <==> NormalizeImage(it.image).Some?
    ensures r.Some? ==> r.value.image == NormalizeImage(it.image).value
    ensures r.Some? ==> r.value.selected == Bool(Truthy(it.selected))
    ensures r.Some? ==> r.value.name == (if Truthy(it.name) then it.name else Str(""))
    ensures r.Some? ==> r.value.rest == it.rest
  {
    match NormalizeImage(it.image)
    case None => None
    case Some(image) =>
      Some(it.(name := Or(it.name, Str("")), image := image, selected := Bool(Truthy(it.selected))))
  }

  /** `xs.map(f)` for a callback `f` that may throw: the first element on
      which `f` throws makes the whole map throw. */
  function MapAll<A, B>(f: A -> Option<B>, xs: seq<A>): (r: Option<seq<B>>)
    ensures r.Some? <==> forall i :: 0 <= i < |xs| ==> f(xs[i]).Some?
    ensures r.Some? ==> |r.value| == |xs|
    ensures r.Some? ==> forall i :: 0 <= i < |xs| ==> r.value[i] == f(xs[i]).value
  {
    if xs == [] then Some([])
    else
      match f(xs[0])
      case None => None
      case Some(first) =>
        match MapAll(f, xs[1..])
        case None => None
        case Some(others) => Some([first] + others)
  }

  /** `(items || []).map(normaliseItem)`. */
  function NormalizeItems(l: Listing<Item>): (r: Option<seq<Item>>)
    ensures l.Scalar? ==> (r.None? <==> Truthy(l.v))
    ensures l.Scalar? && r.Some? ==> r.value == []
    ensures l.Array? ==> r == MapAll(NormalizeItem, l.elems)
  {
    match l
    case Scalar(v) => if Truthy(v) then None else Some([])
    case Array(items) => MapAll(NormalizeItem, items)
  }

  /** The veg cap: the specific cap if truthy, else the generic one, else 1. */
  function VegCapSource(c: Category): Raw {
    Or(c.maxVegSelection, Or(c.maxSelection, Num(1)))
  }

  function NonVegCapSource(c: Category): Raw {
    Or(c.maxNonVegSelection, Or(c.maxSelection, Num(1)))
  }

  /** The veg count is read from `countVegSelectedCount`, not from
      `vegSelectedCount`, falling back to the generic `selectedCount`. */
  function VegCountSource(c: Category): Raw {
    Or(c.countVegSelectedCount, Or(c.selectedCount, Num(0)))
  }

  function NonVegCountSource(c: Category): Raw {
    Or(c.nonVegSelectedCount, Num(0))
  }

  /** The per-category callback of the list-save endpoint. */
  function NormalizeCategory(c: Category): (r: Option<Category>)
    ensures r.Some? <==>
      NormalizeImage(c.image).Some? && NormalizeItems(c.vegItems).Some? && NormalizeItems(c.nonVegItems).Some?
    ensures r.Some? ==> r.value.maxVegSelection.Num? && r.value.maxVegSelection.n >= 1
    ensures r.Some? ==> r.value.maxNonVegSelection.Num? && r.value.maxNonVegSelection.n >= 1
    ensures r.Some? ==> r.value.vegSelectedCount.Num? && r.value.vegSelectedCount.n >= 0
    ensures r.Some? ==> r.value.nonVegSelectedCount.Num? && r.value.nonVegSelectedCount.n >= 0
    ensures r.Some? ==> IsHttpUrl(r.value.image) && r.value.image == NormalizeImage(c.image).value
    ensures r.Some? ==> r.value.name == (if Truthy(c.name) then c.name else Str(""))
    ensures r.Some? ==> r.value.vegItems == Array(NormalizeItems(c.vegItems).value)
    ensures r.Some? ==> r.value.nonVegItems == Array(NormalizeItems(c.nonVegItems).value)
    ensures r.Some? ==> r.value.maxSelection == Absent && r.value.selectedCount == Absent
    ensures r.Some? ==> r.value.countVegSelectedCount == c.countVegSelectedCount && r.value.rest == c.rest
  {
    match (NormalizeImage(c.image), NormalizeItems(c.vegItems), NormalizeItems(c.nonVegItems))
    case (Some(image), Some(veg), Some(nonVeg)) =>
      Some(c.(
        name := Or(c.name, Str("")),
        image := image,
        maxVegSelection := Num(Cap(VegCapSource(c))),
        maxNonVegSelection := Num(Cap(NonVegCapSource(c))),
        vegSelectedCount := Num(Count(VegCountSource(c))),
        nonVegSelectedCount := Num(Count(NonVegCountSource(c))),
        vegItems := Array(veg),
        nonVegItems := Array(nonVeg),
        maxSelection := Absent,
        selectedCount := Absent))
    case _ => None
  }

  /** The list-save normalisation: categories are rewritten only when the
      `categories` field is truthy; otherwise the body is kept as sent. */
  function NormalizeMenuList(ml: MenuList): (r: Option<MenuList>)
    ensures !ListingTruthy(ml.categories) ==> r == Some(ml)
    ensures ml.categories.Scalar? && Truthy(ml.categories.v) ==> r.None?
    ensures ml.categories.Array? ==> (r.Some? <==> MapAll(NormalizeCategory, ml.categories.elems).Some?)
    ensures ml.categories.Array? && r.Some? ==>
      r.value == ml.(categories := Array(MapAll(NormalizeCategory, ml.categories.elems).value))
  {
    match ml.categories
    case Scalar(v) => if Truthy(v) then None else Some(ml)
    case Array(cs) =>
      match MapAll(NormalizeCategory, cs)
      case None => None
      case Some(normalized) => Some(ml.(categories := Array(normalized)))
  }

  // ------------------------------------------------------------ properties

  /** Every category of a normalised list is within bounds and has an
      image that starts with `http`, whatever was submitted. */
  lemma NormalizedListBounds(ml: MenuList)
    requires NormalizeMenuList(ml).Some? && ml.categories.Array?
    ensures var out := NormalizeMenuList(ml).value.categories;
      out.Array? && |out.elems| == |ml.categories.elems| &&
      forall i :: 0 <= i < |out.elems| ==>
        var c := out.elems[i];
        && c.maxVegSelection.Num? && c.maxVegSelection.n >= 1
        && c.maxNonVegSelection.Num? && c.maxNonVegSelection.n >= 1
        && c.vegSelectedCount.Num? && c.vegSelectedCount.n >= 0
        && c.nonVegSelectedCount.Num? && c.nonVegSelectedCount.n >= 0
        && IsHttpUrl(c.image)
  {
    var out := NormalizeMenuList(ml).value.categories;
    forall i | 0 <= i < |out.elems|
      ensures IsHttpUrl(out.elems[i].image)
    {
      assert out.elems[i] == NormalizeCategory(ml.categories.elems[i]).value;
    }
  }

  /** Cap fallback order: the specific cap if truthy, else the shared generic
      `maxSelection`, else 1. The veg count falls back from
      `countVegSelectedCount` to the generic `selectedCount`, then 0; the
      count of non-veg items has no generic fallback. */
  lemma CapFallbackOrder(c: Category)
    requires NormalizeCategory(c).Some?
    ensures var r := NormalizeCategory(c).value;
      && r.maxVegSelection == Num(
           if Truthy(c.maxVegSelection) then Cap(c.maxVegSelection)
           else if Truthy(c.maxSelection) then Cap(c.maxSelection)
           else 1)
      && r.maxNonVegSelection == Num(
           if Truthy(c.maxNonVegSelection) then Cap(c.maxNonVegSelection)
           else if Truthy(c.maxSelection) then Cap(c.maxSelection)
           else 1)
      && r.vegSelectedCount == Num(
           if Truthy(c.countVegSelectedCount) then Count(c.countVegSelectedCount)
           else if Truthy(c.selectedCount) then Count(c.selectedCount)
           else 0)
      && r.nonVegSelectedCount == Num(
           if Truthy(c.nonVegSelectedCount) then Count(c.nonVegSelectedCount) else 0)
  {
  }

  /** The veg count ignores a submitted `vegSelectedCount` entirely: changing
      it does not change the normalised category. */
  lemma VegCountIgnoresVegSelectedCount(c: Category, x: Raw)
    ensures NormalizeCategory(c.(vegSelectedCount := x)) == NormalizeCategory(c)
  {
  }

  /** An item is normalised once and for all. */
  lemma NormalizeItemIdempotent(it: Item)
    requires NormalizeItem(it).Some?
    ensures NormalizeItem(NormalizeItem(it).value) == NormalizeItem(it)
  {
  }

  /** A normalised item list is normalised once and for all. */
  lemma NormalizeItemsIdempotent(l: Listing<Item>)
    requires NormalizeItems(l).Some?
    ensures MapAll(NormalizeItem, NormalizeItems(l).value) == NormalizeItems(l)
  {
    var out := NormalizeItems(l).value;
    if l.Array? {
      forall i | 0 <= i < |out|
        ensures NormalizeItem(out[i]) == Some(out[i])
      {
        NormalizeItemIdempotent(l.elems[i]);
      }
      assert MapAll(NormalizeItem, out).value == out;
    } else {
      assert out == [];
    }
  }

  /** An item list keeps its length and order (a missing list becomes
      empty); each item's `selected` is the truthiness of the submitted
      one, its name defaults to `""` and its image starts with `http`. */
  lemma NormalizedItemsShape(l: Listing<Item>)
    requires NormalizeItems(l).Some?
    ensures var out := NormalizeItems(l).value;
      && |out| == (if l.Array? then |l.elems| else 0)
      && forall i :: 0 <= i < |out| ==>
           && out[i].selected == Bool(Truthy(l.elems[i].selected))
           && out[i].name == (if Truthy(l.elems[i].name) then l.elems[i].name else Str(""))
           && out[i].rest == l.elems[i].rest
           && IsHttpUrl(out[i].image)
  {
  }

  /** A cap or count that is already a number within bounds is kept. */
  lemma CapOfNum(k: int)
    requires k >= 1
    ensures Cap(Num(k)) == k
  {
  }

  lemma CountOfNum(k: int)
    requires k >= 0
    ensures Count(Num(k)) == k
  {
  }

  /** A category in canonical shape normalises to itself, except for the
      veg count, which is read again from `countVegSelectedCount`. */
  lemma RenormalizeCanonical(r: Category)
    requires r.maxVegSelection.Num? && r.maxVegSelection.n >= 1
    requires r.maxNonVegSelection.Num? && r.maxNonVegSelection.n >= 1
    requires r.nonVegSelectedCount.Num? && r.nonVegSelectedCount.n >= 0
    requires IsHttpUrl(r.image) && r.maxSelection == Absent && r.selectedCount == Absent
    requires r.vegItems.Array? && MapAll(NormalizeItem, r.vegItems.elems) == Some(r.vegItems.elems)
    requires r.nonVegItems.Array? && MapAll(NormalizeItem, r.nonVegItems.elems) == Some(r.nonVegItems.elems)
    requires r.name == Or(r.name, Str(""))
    ensures NormalizeCategory(r) ==
      Some(r.(vegSelectedCount := Num(Count(Or(r.countVegSelectedCount, Num(0))))))
  {
    CapOfNum(r.maxVegSelection.n);
    CapOfNum(r.maxNonVegSelection.n);
    CountOfNum(r.nonVegSelectedCount.n);
    CountOfNum(0);
  }

  /** Normalising a normalised category changes nothing but the veg count,
      which is reset to 0 unless `countVegSelectedCount` (which the spread
      carries over) is truthy: full idempotence does not hold. */
  lemma NormalizeCategoryTwice(c: Category)
    requires NormalizeCategory(c).Some?
    ensures var r := NormalizeCategory(c).value;
      NormalizeCategory(r) ==
        Some(r.(vegSelectedCount := if Truthy(c.countVegSelectedCount) then r.vegSelectedCount else Num(0)))
  {
    var r := NormalizeCategory(c).value;
    assert r.vegItems == Array(NormalizeItems(c.vegItems).value);
    assert r.nonVegItems == Array(NormalizeItems(c.nonVegItems).value);
    NormalizeItemsIdempotent(c.vegItems);
    NormalizeItemsIdempotent(c.nonVegItems);
    assert r.name == Or(r.name, Str(""));
    RenormalizeCanonical(r);
    CountOfNum(0);
  }

  /** Hence re-normalising is the identity exactly when the veg count
      survives. */
  lemma NormalizeCategoryStable(c: Category)
    requires NormalizeCategory(c).Some?
    ensures var r := NormalizeCategory(c).value;
      NormalizeCategory(r) == Some(r) <==> Truthy(c.countVegSelectedCount) || r.vegSelectedCount == Num(0)
  {
    NormalizeCategoryTwice(c);
  }
}
