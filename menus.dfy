/** The menu endpoints over an in-memory menu collection: add, edit,
    delete, the three listings, and saving and reading a menu's embedded
    category list. Menus are addressed by a generated id; the caller's
    identity is the `user-id` header, where `""` stands for a missing or
    empty header. */
module Menus {
  import opened JsValues
  import opened MenuNormalizer

  type MenuId = nat

  const PricingNote: string := "Dynamic Pricing: more guests, more savings"

  datatype Menu = Menu(
    userId: string,
    restaurantId: Raw,
    title: Raw,
    description: Raw,
    price: string,
    details: string,
    additionalDetails: string,
    image: string,
    category: Raw,
    menuList: Option<MenuList>)

  /** The multipart fields of the add and edit forms. */
  datatype MenuForm = MenuForm(
    menuName: Raw,
    description: Raw,
    minPrice: Raw,
    maxPrice: Raw,
    minGuests: Raw,
    maxGuests: Raw,
    categories: Raw,
    restaurantId: Raw)

  /** What the list endpoint answers for a menu whose list was never saved. */
  const EmptyMenuList: MenuList := MenuList(Array([]), Bool(false))

  function PriceLabel(f: MenuForm): string {
    ToString(f.minPrice) + " - " + ToString(f.maxPrice) + "/plate"
  }

  function GuestLabel(f: MenuForm): string {
    "Min " + ToString(f.minGuests) + " - Max " + ToString(f.maxGuests) + " Guests"
  }

  /** The record the add endpoint builds: owned by the caller, with the
      uploaded image or the placeholder, and no category list yet. */
  function NewMenu(userId: string, f: MenuForm, file: Option<Upload>): (m: Menu)
    ensures m.userId == userId && m.restaurantId == f.restaurantId && m.menuList == None
    ensures m.title == f.menuName && m.description == f.description && m.category == f.categories
    ensures m.image == if file.Some? then file.value.path else DefaultImage
    ensures m.price == ToString(f.minPrice) + " - " + ToString(f.maxPrice) + "/plate"
    ensures m.details == "Min " + ToString(f.minGuests) + " - Max " + ToString(f.maxGuests) + " Guests"
    ensures m.additionalDetails == PricingNote
  {
    Menu(userId, f.restaurantId, f.menuName, f.description, PriceLabel(f), GuestLabel(f),
         PricingNote, if file.Some? then file.value.path else DefaultImage, f.categories, None)
  }

  /** The update the edit endpoint applies: the form's fields replace the
      old ones, the image is kept when no file is sent, and owner,
      restaurant and category list are untouched. */
  function EditedMenu(prev: Menu, f: MenuForm, file: Option<Upload>): (m: Menu)
    ensures m.userId == prev.userId && m.restaurantId == prev.restaurantId && m.menuList == prev.menuList
    ensures m.title == f.menuName && m.description == f.description && m.category == f.categories
    ensures m.price == ToString(f.minPrice) + " - " + ToString(f.maxPrice) + "/plate"
    ensures m.details == "Min " + ToString(f.minGuests) + " - Max " + ToString(f.maxGuests) + " Guests"
    ensures m.additionalDetails == PricingNote
    ensures file.None? ==> m.image == prev.image
    ensures file.Some? ==> m.image == file.value.path
  {
    prev.(title := f.menuName, description := f.description, price := PriceLabel(f),
         details := GuestLabel(f), additionalDetails := PricingNote,
         image := if file.Some? then file.value.path else prev.image, category := f.categories)
  }

  /** The schema's `required` string paths that the add endpoint does not
      check itself; a record failing them is refused by the store. */
  predicate SchemaAccepts(m: Menu) {
    Required(m.title) && Required(m.description) && Required(m.category) && m.image != ""
  }

  predicate OwnedBy(menus: map<MenuId, Menu>, id: MenuId, userId: string) {
    id in menus && menus[id].userId == userId
  }

  class MenuStore {
    var menus: map<MenuId, Menu>
    var nextId: MenuId

    ghost predicate Valid()
      reads this
    {
      forall id :: id in menus ==> id < nextId
    }

    constructor ()
      ensures Valid() && menus == map[]
    {
      menus := map[];
      nextId := 0;
    }

    /** POST /add */
    method Add(userId: string, form: MenuForm, file: Option<Upload>) returns (status: int, id: Option<MenuId>)
      requires Valid()
      modifies this
      ensures Valid()
      ensures userId == "" ==> status == 400
      ensures userId != "" && !Truthy(form.restaurantId) ==> status == 400
      ensures userId != "" && Truthy(form.restaurantId) && !SchemaAccepts(NewMenu(userId, form, file)) ==>
        status == 500
      ensures status != 201 ==> id.None? && menus == old(menus)
      ensures userId != "" && Truthy(form.restaurantId) && SchemaAccepts(NewMenu(userId, form, file)) ==>
        && status == 201 && id.Some? && id.value !in old(menus)
        && menus == old(menus)[id.value := NewMenu(userId, form, file)]
    {
      if userId == "" {
        return 400, None;
      }
      if !Truthy(form.restaurantId) {
        return 400, None;
      }
      var m := NewMenu(userId, form, file);
      if !SchemaAccepts(m) {
        return 500, None;
      }
      menus := menus[nextId := m];
      id := Some(nextId);
      nextId := nextId + 1;
      status := 201;
    }

    /** PUT /edit/:id: 404 for an unknown id comes before the ownership check. */
    method Edit(id: MenuId, userId: string, form: MenuForm, file: Option<Upload>) returns (status: int)
      requires Valid()
      modifies this
      ensures Valid()
      ensures userId == "" ==> status == 400
      ensures userId != "" && id !in old(menus) ==> status == 404
      ensures userId != "" && id in old(menus) && old(menus)[id].userId != userId ==> status == 403
      ensures status != 200 ==> menus == old(menus)
      ensures userId != "" && OwnedBy(old(menus), id, userId) ==>
        status == 200 && menus == old(menus)[id := EditedMenu(old(menus)[id], form, file)]
    {
      if userId == "" {
        return 400;
      }
      if id !in menus {
        return 404;
      }
      var existing := menus[id];
      if existing.userId != userId {
        return 403;
      }
      menus := menus[id := EditedMenu(existing, form, file)];
      status := 200;
    }

    /** DELETE /delete/:menuId: only a record whose id and owner both match
        is removed; anything else is 404. */
    method Delete(id: MenuId, userId: string) returns (status: int)
      requires Valid()
      modifies this
      ensures Valid()
      ensures userId == "" ==> status == 400 && menus == old(menus)
      ensures userId != "" && !OwnedBy(old(menus), id, userId) ==> status == 404 && menus == old(menus)
      ensures userId != "" && OwnedBy(old(menus), id, userId) ==>
        status == 200 && menus == old(menus) - {id}
    {
      if userId == "" {
        return 400;
      }
      if !OwnedBy(menus, id, userId) {
        return 404;
      }
      menus := menus - {id};
      status := 200;
    }

    /** GET /all */
    method All() returns (found: map<MenuId, Menu>)
      ensures found == menus
    {
      found := menus;
    }

    /** GET /restaurant/:restaurantId */
    method ByRestaurant(restaurantId: string) returns (found: map<MenuId, Menu>)
      ensures forall id :: id in found <==> id in menus && menus[id].restaurantId == Str(restaurantId)
      ensures forall id :: id in found ==> found[id] == menus[id]
    {
      found := map id | id in menus && menus[id].restaurantId == Str(restaurantId) :: menus[id];
    }

    /** GET /my */
    method Mine(userId: string) returns (status: int, found: map<MenuId, Menu>)
      ensures userId == "" ==> status == 400 && found == map[]
      ensures userId != "" ==> status == 200
      ensures forall id :: id in found <==> userId != "" && id in menus && menus[id].userId == userId
      ensures forall id :: id in found ==> found[id] == menus[id]
    {
      if userId == "" {
        return 400, map[];
      }
      found := map id | id in menus && menus[id].userId == userId :: menus[id];
      status := 200;
    }

    /** POST /list/add/:menuId: a missing menu and another user's menu are
        both refused with 403; the normalised list replaces the menu's list
        wholesale; a normaliser that throws leaves the store unchanged. */
    method SaveList(id: MenuId, userId: string, body: MenuList) returns (status: int)
      requires Valid()
      modifies this
      ensures Valid()
      ensures userId == "" ==> status == 400
      ensures userId != "" && !OwnedBy(old(menus), id, userId) ==> status == 403
      ensures userId != "" && OwnedBy(old(menus), id, userId) && NormalizeMenuList(body).None? ==>
        status == 500
      ensures status != 200 ==> menus == old(menus)
      ensures userId != "" && OwnedBy(old(menus), id, userId) && NormalizeMenuList(body).Some? ==>
        && status == 200
        && menus == old(menus)[id := old(menus)[id].(menuList := NormalizeMenuList(body))]
    {
      if userId == "" {
        return 400;
      }
      if !OwnedBy(menus, id, userId) {
        return 403;
      }
      var normalized := NormalizeMenuList(body);
      if normalized.None? {
        return 500;
      }
      menus := menus[id := menus[id].(menuList := normalized)];
      status := 200;
    }

    /** GET /list/:menuId */
    method GetList(id: MenuId) returns (status: int, list: Option<MenuList>)
      ensures id !in menus ==> status == 404 && list.None?
      ensures id in menus ==> status == 200 && list.Some?
      ensures id in menus && menus[id].menuList.Some? ==> list == menus[id].menuList
      ensures id in menus && menus[id].menuList.None? ==> list == Some(EmptyMenuList)
    {
      if id !in menus {
        return 404, None;
      }
      var stored := menus[id].menuList;
      list := if stored.Some? then stored else Some(EmptyMenuList);
      status := 200;
    }
  }
}
