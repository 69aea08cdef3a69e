/** The restaurant endpoints: list all, read the caller's restaurant, add
    one (at most one per user) and update the caller's restaurant. The
    caller is identified by the `user-id` header, `""` when missing. */
module Restaurants {
  import opened JsValues
  import opened Keyed

  datatype Restaurant = Restaurant(
    userId: string,
    name: Raw,
    city: Raw,
    cuisines: seq<string>,
    image: string)

  /** The multipart fields of the add and update forms; `cuisines` is
      taken as already parsed from its JSON text. */
  datatype RestaurantForm = RestaurantForm(name: Raw, city: Raw, cuisines: seq<string>)

  function RestaurantOwner(r: Restaurant): string {
    r.userId
  }

  /** The record an add builds: an image URL when a file was uploaded,
      `""` otherwise. */
  function NewRestaurant(userId: string, f: RestaurantForm, file: Option<Upload>): (r: Restaurant)
    ensures r.userId == userId && r.name == f.name && r.city == f.city && r.cuisines == f.cuisines
    ensures r.image == if file.Some? then file.value.path else ""
  {
    Restaurant(userId, f.name, f.city, f.cuisines, if file.Some? then file.value.path else "")
  }

  /** The update applied to the caller's restaurant: name, city and
      cuisines are replaced, the image only when a file was uploaded, and
      the owner never changes. */
  function UpdatedRestaurant(prev: Restaurant, f: RestaurantForm, file: Option<Upload>): (r: Restaurant)
    ensures r.userId == prev.userId
    ensures r.name == f.name && r.city == f.city && r.cuisines == f.cuisines
    ensures file.None? ==> r.image == prev.image
    ensures file.Some? ==> r.image == file.value.path
  {
    prev.(name := f.name, city := f.city, cuisines := f.cuisines,
          image := if file.Some? then file.value.path else prev.image)
  }

  /** The schema's `required` string paths that the add endpoint does not
      check itself. */
  predicate SchemaAccepts(r: Restaurant) {
    Required(r.name) && Required(r.city)
  }

  class RestaurantStore {
    var restaurants: seq<Restaurant>

    /** The unique index on `userId`: at most one restaurant per user. */
    ghost predicate Valid()
      reads this
    {
      KeysUnique(restaurants, RestaurantOwner)
    }

    constructor ()
      ensures Valid() && restaurants == []
    {
      restaurants := [];
    }

    /** GET / */
    method All() returns (found: seq<Restaurant>)
      ensures found == restaurants
    {
      found := restaurants;
    }

    /** GET /my: a user without a restaurant gets `null`, not 404. */
    method Mine(userId: string) returns (status: int, restaurant: Option<Restaurant>)
      ensures userId == "" ==> status == 400 && restaurant.None?
      ensures userId != "" ==> status == 200
      ensures userId != "" && IndexOf(restaurants, RestaurantOwner, userId).None? ==> restaurant.None?
      ensures restaurant.Some? ==> restaurant.value in restaurants && restaurant.value.userId == userId
      ensures userId != "" && IndexOf(restaurants, RestaurantOwner, userId).Some? ==>
        restaurant == Some(restaurants[IndexOf(restaurants, RestaurantOwner, userId).value])
    {
      if userId == "" {
        return 400, None;
      }
      var found := IndexOf(restaurants, RestaurantOwner, userId);
      restaurant := if found.Some? then Some(restaurants[found.value]) else None;
      status := 200;
    }

    /** POST /add */
    method Add(userId: string, form: RestaurantForm, file: Option<Upload>) returns (status: int)
      requires Valid()
      modifies this
      ensures Valid()
      ensures userId == "" ==> status == 400
      ensures userId != "" && IndexOf(old(restaurants), RestaurantOwner, userId).Some? ==> status == 400
      ensures (userId != "" && IndexOf(old(restaurants), RestaurantOwner, userId).None?
               && !SchemaAccepts(NewRestaurant(userId, form, file))) ==> status == 500
      ensures status != 201 ==> restaurants == old(restaurants)
      ensures (userId != "" && IndexOf(old(restaurants), RestaurantOwner, userId).None?
               && SchemaAccepts(NewRestaurant(userId, form, file))) ==>
        && status == 201
        && restaurants == old(restaurants) + [NewRestaurant(userId, form, file)]
        && Count(restaurants, RestaurantOwner, userId) == 1
    {
      if userId == "" {
        return 400;
      }
      if IndexOf(restaurants, RestaurantOwner, userId).Some? {
        return 400;
      }
      var r := NewRestaurant(userId, form, file);
      if !SchemaAccepts(r) {
        return 500;
      }
      AppendKeepsUnique(restaurants, RestaurantOwner, r);
      restaurants := restaurants + [r];
      UniqueCount(restaurants, RestaurantOwner, userId);
      assert restaurants[|restaurants| - 1] == r;
      status := 201;
    }

    /** PUT /update: only the caller's restaurant is touched. */
    method Update(userId: string, form: RestaurantForm, file: Option<Upload>) returns (status: int)
      requires Valid()
      modifies this
      ensures Valid()
      ensures userId == "" ==> status == 400 && restaurants == old(restaurants)
      ensures userId != "" && IndexOf(old(restaurants), RestaurantOwner, userId).None? ==>
        status == 404 && restaurants == old(restaurants)
      ensures userId != "" && IndexOf(old(restaurants), RestaurantOwner, userId).Some? ==>
        var i := IndexOf(old(restaurants), RestaurantOwner, userId).value;
        && status == 200
        && restaurants == old(restaurants)[i := UpdatedRestaurant(old(restaurants)[i], form, file)]
      ensures |restaurants| == |old(restaurants)|
      ensures forall j :: 0 <= j < |restaurants| && restaurants[j].userId != userId ==>
        restaurants[j] == old(restaurants)[j]
    {
      if userId == "" {
        return 400;
      }
      var found := IndexOf(restaurants, RestaurantOwner, userId);
      if found.None? {
        return 404;
      }
      var i := found.value;
      var r := UpdatedRestaurant(restaurants[i], form, file);
      ReplaceKeepsIndex(restaurants, RestaurantOwner, i, r);
      restaurants := restaurants[i := r];
      status := 200;
    }
  }

  /** Any sequence of adds keeps "at most one restaurant per user": under
      the store invariant no user owns two restaurants. */
  lemma AtMostOnePerUser(rs: seq<Restaurant>, userId: string)
    requires KeysUnique(rs, RestaurantOwner)
    ensures Count(rs, RestaurantOwner, userId) <= 1
  {
    UniqueCount(rs, RestaurantOwner, userId);
  }
}
