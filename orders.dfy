/** The order endpoints: create with contact validation, list, patch of
    the schedule and contact fields, and delete. Orders are addressed by a
    generated id. */
module Orders {
  import opened JsValues

  type OrderId = nat

  // ---------------------------------------------------------- phone format

  /** The body of a phone number once an optional leading `+` is removed. */
  function PhoneDigits(s: string): string {
    if |s| > 0 && s[0] == '+' then s[1..] else s
  }

  /** The pattern `^\+?\d{10,15}$` used by both the create and the patch
      endpoint: an optional `+`, then ten to fifteen ASCII digits and
      nothing else. */
  predicate IsPhone(s: string) {
    var d := PhoneDigits(s);
    10 <= |d| <= 15 && AllDigits(d)
  }

  /** The same pattern written as the language it denotes. */
  ghost predicate PhoneLanguage(s: string) {
    exists d: string :: (s == d || s == "+" + d) && 10 <= |d| <= 15 && AllDigits(d)
  }

  lemma IsPhoneMatchesLanguage(s: string)
    ensures IsPhone(s) <==> PhoneLanguage(s)
  {
    if IsPhone(s) {
      var d := PhoneDigits(s);
      assert s == d || s == "+" + d;
    }
    if PhoneLanguage(s) {
      var d: string :| (s == d || s == "+" + d) && 10 <= |d| <= 15 && AllDigits(d);
      if s == d {
        assert IsDigit(s[0]);
      } else {
        assert s[1..] == d;
      }
    }
  }

  /** A matched phone number is ten to sixteen characters long, and every
      character is a digit except possibly a leading `+`. */
  lemma IsPhoneShape(s: string)
    requires IsPhone(s)
    ensures 10 <= |s| <= 16
    ensures forall i :: 0 <= i < |s| ==> IsDigit(s[i]) || (i == 0 && s[i] == '+')
  {
    var d := PhoneDigits(s);
    if |s| > 0 && s[0] == '+' {
      forall i | 1 <= i < |s|
        ensures IsDigit(s[i])
      {
        assert s[i] == d[i - 1];
      }
    }
  }

  /** `regex.test(v)`, which converts its argument to a string first. */
  predicate PhoneOk(v: Raw) {
    IsPhone(ToString(v))
  }

  /** The alternate number is optional: any falsy value passes, anything
      else must match the phone pattern. */
  predicate AltPhoneOk(v: Raw) {
    Truthy(v) ==> PhoneOk(v)
  }

  // ---------------------------------------------------------------- records

  datatype SelectedItem = SelectedItem(name: Raw, kind: Raw, category: Raw)

  /** A request body as the endpoints receive it; any field may be missing. */
  datatype OrderBody = OrderBody(
    menuTitle: Raw,
    date: Raw,
    time: Raw,
    guests: Raw,
    pricePerPlate: Raw,
    location: Raw,
    restaurantId: Raw,
    phoneNumber: Raw,
    name: Raw,
    altPhoneNumber: Raw,
    selectedItems: seq<SelectedItem>)

  /** A stored order. The string paths hold the schema's cast of the
      submitted value; the numeric paths are kept as submitted. */
  datatype Order = Order(
    menuTitle: Raw,
    date: Raw,
    time: Raw,
    guests: Raw,
    pricePerPlate: Raw,
    location: Raw,
    restaurantId: Raw,
    phoneNumber: Raw,
    name: Raw,
    altPhoneNumber: Raw,
    selectedItems: seq<SelectedItem>)

  /** The record a create builds: every submitted field, string paths cast
      to strings, and the schema default `""` for a missing alternate
      number. */
  function NewOrder(b: OrderBody): (o: Order)
    ensures o.menuTitle == CastString(b.menuTitle) && o.date == CastString(b.date)
    ensures o.time == CastString(b.time) && o.location == CastString(b.location)
    ensures o.restaurantId == CastString(b.restaurantId)
    ensures o.phoneNumber == CastString(b.phoneNumber) && o.name == CastString(b.name)
    ensures o.altPhoneNumber == if b.altPhoneNumber == Absent then Str("") else CastString(b.altPhoneNumber)
    ensures o.guests == b.guests && o.pricePerPlate == b.pricePerPlate
    ensures o.selectedItems == b.selectedItems
  {
    Order(CastString(b.menuTitle), CastString(b.date), CastString(b.time), b.guests, b.pricePerPlate,
          CastString(b.location), CastString(b.restaurantId), CastString(b.phoneNumber),
          CastString(b.name), if b.altPhoneNumber == Absent then Str("") else CastString(b.altPhoneNumber),
          b.selectedItems)
  }

  predicate NumberRequired(v: Raw) {
    Required(v) && NumberOf(v).Some?
  }

  predicate ItemAccepted(it: SelectedItem) {
    Required(it.name) && Required(it.category) && (it.kind == Str("veg") || it.kind == Str("nonveg"))
  }

  /** The schema validation run when a new order is saved: every path but
      the alternate number is required, the two numeric paths must convert
      to numbers, and each selected item needs a name, a category and a
      kind of `veg` or `nonveg`. */
  predicate SchemaAccepts(o: Order) {
    && Required(o.menuTitle) && Required(o.date) && Required(o.time)
    && NumberRequired(o.guests) && NumberRequired(o.pricePerPlate)
    && Required(o.location) && Required(o.restaurantId)
    && Required(o.phoneNumber) && Required(o.name)
    && forall i :: 0 <= i < |o.selectedItems| ==> ItemAccepted(o.selectedItems[i])
  }

  /** The update a successful patch applies: six fields are replaced (the
      string ones cast to strings), a falsy alternate number becomes `""`,
      and everything else is kept. */
  function Patched(o: Order, b: OrderBody): (r: Order)
    ensures r.name == CastString(b.name) && r.date == CastString(b.date) && r.time == CastString(b.time)
    ensures r.guests == b.guests && r.location == CastString(b.location)
    ensures r.altPhoneNumber == if Truthy(b.altPhoneNumber) then CastString(b.altPhoneNumber) else Str("")
    ensures r.phoneNumber == o.phoneNumber && r.menuTitle == o.menuTitle
    ensures r.pricePerPlate == o.pricePerPlate && r.restaurantId == o.restaurantId
    ensures r.selectedItems == o.selectedItems
  {
    o.(name := CastString(b.name), altPhoneNumber := CastString(Or(b.altPhoneNumber, Str(""))),
       date := CastString(b.date), time := CastString(b.time), guests := b.guests,
       location := CastString(b.location))
  }

  // -------------------------------------------------------------- validation

  /** The reasons the endpoints give for a 400 answer. */
  datatype OrderError =
    | NameRequired
    | PhoneRequired
    | InvalidPhone
    | InvalidAltPhone
    | DateRequired
    | TimeRequired
    | TooFewGuests
    | LocationRequired

  /** The create checks in the order the endpoint runs them; the first
      failing check decides the answer. */
  function CreateCheck(b: OrderBody): (e: Option<OrderError>)
    ensures e == None <==>
      Truthy(b.name) && Truthy(b.phoneNumber) && PhoneOk(b.phoneNumber) && AltPhoneOk(b.altPhoneNumber)
    ensures e == Some(NameRequired) <==> !Truthy(b.name)
    ensures e == Some(PhoneRequired) <==> Truthy(b.name) && !Truthy(b.phoneNumber)
    ensures e == Some(InvalidPhone) <==>
      Truthy(b.name) && Truthy(b.phoneNumber) && !PhoneOk(b.phoneNumber)
    ensures e == Some(InvalidAltPhone) <==>
      Truthy(b.name) && Truthy(b.phoneNumber) && PhoneOk(b.phoneNumber) && !AltPhoneOk(b.altPhoneNumber)
  {
    if !Truthy(b.name) then Some(NameRequired)
    else if !Truthy(b.phoneNumber) then Some(PhoneRequired)
    else if !PhoneOk(b.phoneNumber) then Some(InvalidPhone)
    else if !AltPhoneOk(b.altPhoneNumber) then Some(InvalidAltPhone)
    else None
  }

  /** `!guests || guests < 1` */
  predicate TooFew(guests: Raw) {
    !Truthy(guests) || LessThan(guests, 1)
  }

  /** The patch checks in the order the endpoint runs them. The primary
      phone number is not among them. */
  function PatchCheck(b: OrderBody): (e: Option<OrderError>)
    ensures e == None <==>
      && Truthy(b.name) && AltPhoneOk(b.altPhoneNumber) && Truthy(b.date) && Truthy(b.time)
      && !TooFew(b.guests) && Truthy(b.location)
    ensures e == Some(NameRequired) <==> !Truthy(b.name)
    ensures e == Some(InvalidAltPhone) <==> Truthy(b.name) && !AltPhoneOk(b.altPhoneNumber)
    ensures e == Some(DateRequired) <==> Truthy(b.name) && AltPhoneOk(b.altPhoneNumber) && !Truthy(b.date)
    ensures e == Some(TimeRequired) <==>
      Truthy(b.name) && AltPhoneOk(b.altPhoneNumber) && Truthy(b.date) && !Truthy(b.time)
    ensures e == Some(TooFewGuests) <==>
      Truthy(b.name) && AltPhoneOk(b.altPhoneNumber) && Truthy(b.date) && Truthy(b.time) && TooFew(b.guests)
    ensures e == Some(LocationRequired) <==>
      && Truthy(b.name) && AltPhoneOk(b.altPhoneNumber) && Truthy(b.date) && Truthy(b.time)
      && !TooFew(b.guests) && !Truthy(b.location)
  {
    if !Truthy(b.name) then Some(NameRequired)
    else if !AltPhoneOk(b.altPhoneNumber) then Some(InvalidAltPhone)
    else if !Truthy(b.date) then Some(DateRequired)
    else if !Truthy(b.time) then Some(TimeRequired)
    else if TooFew(b.guests) then Some(TooFewGuests)
    else if !Truthy(b.location) then Some(LocationRequired)
    else None
  }

  /** The patch validation does not look at the primary phone number. */
  lemma PatchCheckIgnoresPrimaryPhone(b: OrderBody, p: Raw)
    ensures PatchCheck(b.(phoneNumber := p)) == PatchCheck(b)
  {
  }

  /** For a guest count that converts to a number, the patch check
      passes exactly when that number is at least one. */
  lemma NumericGuestsCheckedExactly(g: Raw)
    requires NumberOf(g).Some?
    ensures !TooFew(g) <==> NumberOf(g).value >= 1
  {
    if NumberOf(g).value >= 1 {
      assert Truthy(g) by {
        match g
        case Str(s) =>
          assert s != "";
        case _ =>
      }
    }
  }

  /** A truthy guest count that does not convert to a number passes the
      patch check, since `NaN < 1` is false. */
  lemma NonNumericGuestsPassCheck(g: Raw)
    requires Truthy(g) && NumberOf(g).None?
    ensures !TooFew(g)
  {
  }

  /** The string forms of the falsy JSON values a create lets through as
      an alternate number without checking it. */
  predicate UncheckedAlt(v: Raw) {
    v == Str("0") || v == Str("false")
  }

  /** The contact invariant every stored order keeps: a primary number in
      the phone format, and an alternate number that is `""`, in the phone
      format, or the cast of an unchecked falsy value. */
  predicate ContactsValid(o: Order) {
    && PhoneOk(o.phoneNumber)
    && (o.altPhoneNumber == Str("") || PhoneOk(o.altPhoneNumber) || UncheckedAlt(o.altPhoneNumber))
  }

  /** A body that passes the create checks yields an order whose contacts
      keep the invariant. */
  lemma CreatedContactsValid(b: OrderBody)
    requires CreateCheck(b) == None
    ensures ContactsValid(NewOrder(b))
  {
    var alt := b.altPhoneNumber;
    if alt != Absent && !Truthy(alt) {
      assert alt == Str("") || alt == Num(0) || alt == Bool(false) by {
        match alt
        case Bool(_) =>
        case Num(_) =>
        case Str(_) =>
      }
    }
  }

  /** The alternate number a create stores need not be empty nor a phone
      number: a JSON `0` passes the create checks, since it is falsy, and is
      stored as the string `"0"`. */
  lemma CreateStoresUncheckedAlt(b: OrderBody)
    requires b.name == Str("Asha") && b.phoneNumber == Str("9876543210") && b.altPhoneNumber == Num(0)
    ensures CreateCheck(b) == None
    ensures NewOrder(b).altPhoneNumber == Str("0")
    ensures Truthy(NewOrder(b).altPhoneNumber) && !PhoneOk(NewOrder(b).altPhoneNumber)
  {
    assert IsPhone("9876543210") by {
      assert PhoneDigits("9876543210") == "9876543210";
    }
    assert !IsPhone("0") by {
      assert PhoneDigits("0") == "0";
    }
  }

  /** A body that passes the patch checks leaves an alternate number that
      is `""` or in the phone format, and keeps the primary number. */
  lemma PatchedContactsValid(o: Order, b: OrderBody)
    requires ContactsValid(o) && PatchCheck(b) == None
    ensures ContactsValid(Patched(o, b))
    ensures Patched(o, b).altPhoneNumber == Str("") || PhoneOk(Patched(o, b).altPhoneNumber)
  {
  }

  // ----------------------------------------------------------------- store

  class OrderStore {
    var orders: map<OrderId, Order>
    var nextId: OrderId

    ghost predicate Valid()
      reads this
    {
      && (forall id :: id in orders ==> id < nextId)
      && (forall id :: id in orders ==> ContactsValid(orders[id]))
    }

    constructor ()
      ensures Valid() && orders == map[]
    {
      orders := map[];
      nextId := 0;
    }

    /** POST / */
    method Create(b: OrderBody) returns (status: int, error: Option<OrderError>, id: Option<OrderId>)
      requires Valid()
      modifies this
      ensures Valid()
      ensures error == CreateCheck(b)
      ensures error.Some? ==> status == 400
      ensures error.None? && !SchemaAccepts(NewOrder(b)) ==> status == 500
      ensures status != 201 ==> id.None? && orders == old(orders)
      ensures error.None? && SchemaAccepts(NewOrder(b)) ==>
        && status == 201 && id.Some? && id.value !in old(orders)
        && orders == old(orders)[id.value := NewOrder(b)]
    {
      error := CreateCheck(b);
      if error.Some? {
        return 400, error, None;
      }
      var o := NewOrder(b);
      if !SchemaAccepts(o) {
        return 500, error, None;
      }
      CreatedContactsValid(b);
      orders := orders[nextId := o];
      id := Some(nextId);
      nextId := nextId + 1;
      status := 201;
    }

    /** GET / */
    method All() returns (found: map<OrderId, Order>)
      ensures found == orders
    {
      found := orders;
    }

    /** PATCH /:id: every check runs before the lookup, so an invalid body
        is refused with 400 even for an unknown id. A guest count that
        passed the checks without being numeric makes the store's cast of
        the update fail, which the endpoint answers with 500. */
    method Patch(id: OrderId, b: OrderBody) returns (status: int, error: Option<OrderError>)
      requires Valid()
      modifies this
      ensures Valid()
      ensures error == PatchCheck(b)
      ensures error.Some? ==> status == 400
      ensures error.None? && NumberOf(b.guests).None? ==> status == 500
      ensures error.None? && NumberOf(b.guests).Some? && id !in old(orders) ==> status == 404
      ensures status != 200 ==> orders == old(orders)
      ensures error.None? && NumberOf(b.guests).Some? && id in old(orders) ==>
        status == 200 && orders == old(orders)[id := Patched(old(orders)[id], b)]
    {
      error := PatchCheck(b);
      if error.Some? {
        return 400, error;
      }
      if NumberOf(b.guests).None? {
        return 500, error;
      }
      if id !in orders {
        return 404, error;
      }
      PatchedContactsValid(orders[id], b);
      orders := orders[id := Patched(orders[id], b)];
      status := 200;
    }

    /** DELETE /:id */
    method Delete(id: OrderId) returns (status: int)
      requires Valid()
      modifies this
      ensures Valid()
      ensures id !in old(orders) ==> status == 404 && orders == old(orders)
      ensures id in old(orders) ==> status == 200 && orders == old(orders) - {id}
    {
      if id !in orders {
        return 404;
      }
      orders := orders - {id};
      status := 200;
    }
  }
}
