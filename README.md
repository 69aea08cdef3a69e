# katbox backend: request handlers in Dafny

A model of the katbox restaurant backend's route handlers, written in Dafny. The backend is an Express and Mongoose service for caterers, and it has five route families:

- menus, including the menu-list normaliser that rewrites submitted categories and items into a canonical shape;
- orders, with their phone-number format and ordered field validation;
- decorations, whose images are URL/handle pairs on a media host;
- restaurants, at most one per user;
- profiles, upserted by user id.

Request values are loosely typed JavaScript values (`JsValues.Raw`). The handful of JavaScript operations the handlers apply to them are written out explicitly: truthiness, `||`, `String(x)` and template literals, `parseInt`, and the numeric conversion behind `<`.

The modules:

- `JsValues`: raw values, truthiness, decimal printing and `parseInt`. `parseInt` is proved consistent with `String` and exact on the integers `String` prints in plain decimal.
- `MenuNormalizer`: the category and item normaliser of the list-save endpoint, as pure functions. A `TypeError` the JavaScript would throw becomes `None`.
- `Menus`, `Orders`, `Decorations`, `Restaurants` and `Profiles`: one class per collection. Each class holds the collection as a field, and each endpoint is a method that returns the HTTP status and states the collection's new state in full.
  - Menus, orders and decorations are maps from generated ids.
  - Restaurants and profiles are sequences in storage order, looked up by owner. A unique-owner invariant mirrors the unique index on `userId`.
- `Keyed`: the owner lookup (`findOne({ userId })`), the unique-key invariant, and what appending and replacing do to both.

The caller's `user-id` header is a string, and `""` stands for a missing header. An uploaded file is an optional `(path, filename)` pair. The media host's `destroy` is an entry appended to a log, plus a flag saying whether the call fails.

## Model

| member | source | states |
|---|---|---|
| JsValues.DecimalRoundTrip | src/routes/menuRoutes.ts:196-199 | reading back the decimal digits printed for `n` gives `n` |
| JsValues.ParseIntAgreesWithString | src/routes/menuRoutes.ts:196-199 | `parseInt(v)` equals `parseInt(String(v))` for every value, so `parseInt` gives back every integer that `String` prints in plain decimal, and `NaN` on `undefined` and booleans |
| MenuNormalizer.Cap | src/routes/menuRoutes.ts:196-197 | a cap is at least 1; it is the parsed value when that is at least 1, otherwise 1 |
| MenuNormalizer.Count | src/routes/menuRoutes.ts:198-199 | a count is at least 0; it is the parsed value when that is non-negative, otherwise 0 |
| MenuNormalizer.NormalizeImage | src/routes/menuRoutes.ts:193-195 | throws exactly when the image is truthy and not a string; otherwise the result is an `http` URL, namely the input when it starts with `http` and the placeholder otherwise |
| MenuNormalizer.NormalizeItem | src/routes/menuRoutes.ts:200-207 | an item's `selected` becomes the boolean truthiness of the submitted one, its name defaults to `""`, its image is normalised, and its other fields are kept |
| MenuNormalizer.MapAll | src/routes/menuRoutes.ts:184 | a map whose callback may throw succeeds exactly when every element succeeds, keeps length and order, and is the callback pointwise |
| MenuNormalizer.NormalizeItems | src/routes/menuRoutes.ts:200-215 | a missing or falsy item list becomes `[]`, a truthy non-array throws, and an array is mapped item by item |
| MenuNormalizer.NormalizeCategory | src/routes/menuRoutes.ts:184-218 | a normalised category has caps of at least 1 and counts of at least 0; its image is the submitted one when that starts with `http` and the placeholder otherwise; its name is the submitted one or `""` when falsy; its veg and non-veg item lists are the normalised submitted lists; the generic `maxSelection` and `selectedCount` are cleared; `countVegSelectedCount` and every unlisted field are carried over |
| MenuNormalizer.NormalizeMenuList | src/routes/menuRoutes.ts:183-220 | a body with falsy `categories` is kept as sent; truthy non-array categories throw; an array is normalised category by category and nothing else in the body changes |
| MenuNormalizer.NormalizedListBounds | src/routes/menuRoutes.ts:185-199 | every category of a normalised list has the input's position, caps of at least 1, counts of at least 0 and an image that starts with `http` |
| MenuNormalizer.CapFallbackOrder | src/routes/menuRoutes.ts:185-188 | each cap is the specific cap if truthy, else the shared generic `maxSelection`, else 1; the veg count is `countVegSelectedCount` if truthy, else the generic `selectedCount`, else 0; the non-veg count has no generic fallback |
| MenuNormalizer.VegCountIgnoresVegSelectedCount | src/routes/menuRoutes.ts:187 | the submitted `vegSelectedCount` has no influence on the result, because the veg count is read from `countVegSelectedCount` |
| MenuNormalizer.NormalizedItemsShape | src/routes/menuRoutes.ts:200-215 | an item list keeps its length and order, and each output item has the truthiness of its input's `selected`, the defaulted name, the input's other fields and an image that starts with `http` |
| MenuNormalizer.NormalizeItemIdempotent | src/routes/menuRoutes.ts:200-207 | normalising a normalised item changes nothing |
| MenuNormalizer.NormalizeItemsIdempotent | src/routes/menuRoutes.ts:200-215 | normalising a normalised item list changes nothing |
| MenuNormalizer.CapOfNum | src/routes/menuRoutes.ts:196-197 | a cap that is already a number of at least 1 is kept |
| MenuNormalizer.CountOfNum | src/routes/menuRoutes.ts:198-199 | a count that is already a non-negative number is kept |
| MenuNormalizer.RenormalizeCanonical | src/routes/menuRoutes.ts:184-218 | a category in canonical shape normalises to itself, except that the veg count is read again from `countVegSelectedCount` |
| MenuNormalizer.NormalizeCategoryTwice | src/routes/menuRoutes.ts:184-218 | normalising twice changes only the veg count, which drops to 0 unless `countVegSelectedCount` is truthy |
| MenuNormalizer.NormalizeCategoryStable | src/routes/menuRoutes.ts:184-218 | re-normalising a normalised category is the identity exactly when `countVegSelectedCount` is truthy or the veg count is already 0 |
| Menus.NewMenu | src/routes/menuRoutes.ts:52-62 | a new menu belongs to the caller and the given restaurant, has the submitted title, description and category, the price label `<min> - <max>/plate`, the guest label `Min <min> - Max <max> Guests`, the fixed pricing note, the uploaded image or the placeholder, and no category list |
| Menus.EditedMenu | src/routes/menuRoutes.ts:88-96 | an edit replaces title, description and category, recomputes the price label `<min> - <max>/plate` and the guest label `Min <min> - Max <max> Guests`, resets the pricing note, takes the uploaded image or keeps the old one when no file is sent, and never changes owner, restaurant or category list |
| Menus.MenuStore.Add | src/routes/menuRoutes.ts:40-68 | a missing user id or restaurant id gives 400, and a record the schema refuses gives 500, both with the store unchanged; otherwise exactly one new menu is stored under a fresh id (201) |
| Menus.MenuStore.Edit | src/routes/menuRoutes.ts:71-106 | 400 for a missing user id, then 404 for an unknown id, then 403 for another user's menu, all with the store unchanged; otherwise only that menu is replaced by its edited form |
| Menus.MenuStore.Delete | src/routes/menuRoutes.ts:109-127 | only a menu whose id and owner both match is removed; an unknown id and another user's menu both give 404 |
| Menus.MenuStore.All | src/routes/menuRoutes.ts:130-137 | returns every menu |
| Menus.MenuStore.ByRestaurant | src/routes/menuRoutes.ts:140-148 | returns exactly the menus of the given restaurant |
| Menus.MenuStore.Mine | src/routes/menuRoutes.ts:151-163 | a missing user id gives 400; otherwise returns exactly the caller's menus |
| Menus.MenuStore.SaveList | src/routes/menuRoutes.ts:166-228 | 400, then 403 for a missing menu or another user's menu, then 500 when the normaliser throws, all with the store unchanged; otherwise only the menu's list changes, to the normalised one |
| Menus.MenuStore.GetList | src/routes/menuRoutes.ts:231-245 | 404 for an unknown menu; otherwise the saved list, or an empty unsubmitted list when none was saved |
| Orders.IsPhoneMatchesLanguage | src/routes/orderRoutes.ts:22 | the phone check accepts exactly an optional `+` followed by 10 to 15 ASCII digits |
| Orders.IsPhoneShape | src/routes/orderRoutes.ts:22 | an accepted number is 10 to 16 characters long, and each character is a digit except possibly a leading `+` |
| Orders.NewOrder | src/routes/orderRoutes.ts:32-33 | a created order holds every submitted string field (menu title, date, time, location, restaurant, name, phone) after the schema's `String` cast, the guest count, price per plate and selected items as submitted, and the alternate number cast the same way, or `""` when it is missing |
| Orders.Patched | src/routes/orderRoutes.ts:84-95 | a patch sets name, date, time and location (each cast to a string) and guests, sets the alternate number (cast to a string, `""` when falsy), and keeps the primary phone, menu title, price, restaurant and selected items |
| Orders.CreateCheck | src/routes/orderRoutes.ts:12-30 | the create checks run in order (name, phone present, phone format, then alternate format if the alternate is truthy), and each error is reported exactly when every earlier check passed and its own fails |
| Orders.PatchCheck | src/routes/orderRoutes.ts:59-82 | the patch checks run in order (name, alternate format, date, time, guests missing or below 1, location), first failure wins, and the primary phone is not checked |
| Orders.PatchCheckIgnoresPrimaryPhone | src/routes/orderRoutes.ts:59-82 | changing the primary phone never changes the patch verdict |
| Orders.NumericGuestsCheckedExactly | src/routes/orderRoutes.ts:75 | a numeric guest count passes exactly when it is at least 1 |
| Orders.NonNumericGuestsPassCheck | src/routes/orderRoutes.ts:75 | a truthy guest count that is not a number passes `!g \|\| g < 1`, because `NaN < 1` is false |
| Orders.CreatedContactsValid | src/routes/orderRoutes.ts:22-33 | an order built from a body that passed the create checks has a valid primary number, and an alternate that is `""`, a valid number, or the string `"0"` or `"false"` cast from a falsy non-string alternate that skipped the format check |
| Orders.CreateStoresUncheckedAlt | src/routes/orderRoutes.ts:27-33 | a body whose alternate number is the number 0 passes every create check and is stored with the alternate `"0"`, which is truthy and not a valid phone number |
| Orders.PatchedContactsValid | src/routes/orderRoutes.ts:63-95 | a patch that passed its checks keeps the contact invariant, and its alternate is then `""` or a valid number |
| Orders.OrderStore.Create | src/routes/orderRoutes.ts:7-39 | the verdict is the create checks' verdict; a failed check gives 400 and a schema refusal gives 500, both with the store unchanged; otherwise exactly one new order is added (201) and the contact invariant (valid primary number; alternate `""`, valid, or `"0"`/`"false"`) is kept |
| Orders.OrderStore.All | src/routes/orderRoutes.ts:42-50 | returns every order |
| Orders.OrderStore.Patch | src/routes/orderRoutes.ts:53-107 | all checks run before the lookup, so a bad body gives 400 even for an unknown id; a guest count that cannot be cast gives 500; then 404; otherwise only that order changes, to its patched form |
| Orders.OrderStore.Delete | src/routes/orderRoutes.ts:110-123 | an unknown id gives 404 with the store unchanged; otherwise exactly that order is removed |
| Decorations.NewDecoration | src/routes/decorationRoutes.ts:30-40 | a created decoration has the form fields, the uploaded file's path as `image` and its filename as `imagePublicId` |
| Decorations.UpdatedDecoration | src/routes/decorationRoutes.ts:81-97 | an update replaces the form fields; the URL/handle pair is either the uploaded pair or the old pair, never one half of each |
| Decorations.RetiredHandle | src/routes/decorationRoutes.ts:88-93 | an update destroys the old handle exactly when a file is uploaded and the old handle exists |
| Decorations.DecorationStore.Create | src/routes/decorationRoutes.ts:20-48 | a falsy field or a missing file gives 400 and a refused record gives 500, both with the store unchanged; otherwise exactly one new decoration is stored (201) and nothing is destroyed |
| Decorations.DecorationStore.All | src/routes/decorationRoutes.ts:51-62 | returns every decoration |
| Decorations.DecorationStore.Update | src/routes/decorationRoutes.ts:65-109 | fields are checked before the lookup (400, then 404); a destroy of the old handle is requested exactly when it is retired; a failing destroy gives 500 with the record unchanged; otherwise only that record changes, to its updated form |
| Decorations.DecorationStore.Delete | src/routes/decorationRoutes.ts:112-132 | an unknown id gives 404; otherwise the handle, if any, is destroyed first; if that destroy fails the result is 500 and the record remains; otherwise exactly that record is removed |
| Keyed.IndexOf | src/routes/restaurantRoutes.ts:50 | finds the first element with the key, or reports that none has it |
| Keyed.UniqueCount | src/models/Restaurant.ts:4 | under the unique index a key is held by exactly one element when the lookup finds it, and by none otherwise |
| Keyed.AppendKeepsUnique | src/routes/restaurantRoutes.ts:69-83 | appending an element whose key is absent keeps keys unique |
| Keyed.ReplaceKeepsIndex | src/routes/restaurantRoutes.ts:116 | replacing the found element by one with the same key keeps keys unique and keeps the lookup's answer |
| Restaurants.NewRestaurant | src/routes/restaurantRoutes.ts:75-81 | a new restaurant has the caller as owner, the submitted name, city and cuisines, and the uploaded image or `""` |
| Restaurants.UpdatedRestaurant | src/routes/restaurantRoutes.ts:109-114 | an update replaces name, city and cuisines, keeps the image when no file is sent, and never changes the owner |
| Restaurants.RestaurantStore.All | src/routes/restaurantRoutes.ts:32-39 | returns every restaurant |
| Restaurants.RestaurantStore.Mine | src/routes/restaurantRoutes.ts:42-55 | a missing user id gives 400; otherwise the result is 200 with the caller's restaurant, or with nothing (not 404) when there is none |
| Restaurants.RestaurantStore.Add | src/routes/restaurantRoutes.ts:58-89 | a missing user id, or a caller who already owns a restaurant, gives 400, and a schema refusal gives 500, all with the store unchanged; otherwise one restaurant is appended and the caller then owns exactly one |
| Restaurants.RestaurantStore.Update | src/routes/restaurantRoutes.ts:92-123 | 400, then 404 when the caller owns no restaurant; otherwise only the caller's record changes, to its updated form, and every other user's record is unchanged |
| Restaurants.AtMostOnePerUser | src/models/Restaurant.ts:4 | under the store invariant no user owns more than one restaurant |
| Profiles.Submitted | src/routes/profileRoutes.ts:47-64 | an upserted profile is keyed by `String` of the submitted user id (non-empty when that id is truthy), stores email and phone as `""` when falsy, and the other fields as submitted |
| Profiles.Upserted | src/routes/profileRoutes.ts:54-67 | an upsert either overwrites one profile in place or appends one |
| Profiles.UpsertedExactlyOne | src/routes/profileRoutes.ts:54-67 | after an upsert the user has exactly one profile, the one just written, whether or not one existed before; user ids stay unique |
| Profiles.UpsertedKeepsOthers | src/routes/profileRoutes.ts:54-56 | no other user's profile is added, removed or changed by an upsert |
| Profiles.UpsertedIdempotent | src/routes/profileRoutes.ts:54-67 | repeating the same upsert leaves the store as the first one left it |
| Profiles.ProfileStore.Get | src/routes/profileRoutes.ts:21-42 | an empty user id gives 400, an unknown one 404, and a known one returns that user's stored profile |
| Profiles.ProfileStore.Upsert | src/routes/profileRoutes.ts:45-74 | a falsy user id gives 400 with the store unchanged; otherwise the store becomes the upserted store, the submitted user id then has exactly one profile, and the unique-owner invariant holds |

## Left out

- Express routing, the server bootstrap, CORS and environment configuration are not modelled, and neither are the media host's storage configuration and the upload middleware. An upload is only an optional `(path, filename)` pair.
- The two bare image-upload endpoints (`/category-image`, `/item-image`) only echo the upload's path and are not modelled.
- Every `catch` that answers 500 because the database is unreachable is not modelled. Only the 500s the handlers' own data can cause are modelled: a thrown `TypeError`, a schema refusal at save, a failing destroy, and a guest count that cannot be cast.
- Races between concurrent requests are not modelled; each handler runs to completion on its own.
- Mongoose ids are opaque naturals, so a malformed id (a `CastError`, answered with 500) cannot occur. Map-backed collections do not keep insertion order, so the listings return the collection without an order.
- `null` is folded into `undefined` (`Absent`). Objects and arrays inside scalar fields, and fractional numbers, are not modelled.
- JsValues.ParseInt: hexadecimal prefixes and radix handling are not modelled; base-10 integer prefixes are exact. A `Num` is an exact unbounded integer, so the rounding of numbers beyond 2^53 is not modelled, and neither is the exponent form `String` gives from 10^21 on (in JavaScript `parseInt(1e21)` is 1, in the model it is 10^21).
- JsValues.NumberOf: a numeric string with leading or trailing white space, a decimal point, an exponent, `Infinity` or a `0x`, `0b` or `0o` prefix converts to `NaN` (`None`) in the model, where JavaScript gives a number. So a guest count of `"0.5"` gets 500 from `Orders.OrderStore.Patch` where the source answers 400 (`"0.5" < 1`), and `"1.5"`, `" 5"` or `"0x10"` gets 500 from `Orders.OrderStore.Patch` and `Orders.OrderStore.Create` where the source answers 200 or 201; the same holds for `pricePerPlate` on create.
- MenuNormalizer.NormalizeCategory: a `null` category or item, which throws a `TypeError` (500), and a primitive element, which JavaScript normalises into a default category or item, are not modelled; every element is a record.
- Menus.MenuStore.SaveList: the schema's strict mode drops unknown fields such as `countVegSelectedCount` when the list is saved; the model stores the normalised list as it is. The schema's number casting of caps and counts and the timestamps are also left out, and so are the `Boolean` cast of `isSubmitted` and the array cast of a falsy non-null `categories`; a value either cast refuses would fail the save with 500 where the model answers 200.
- Menus.MenuStore.Add: the cast of `restaurantId` to an ObjectId is not modelled; a truthy id is accepted.
- Orders.OrderStore.Create: string paths are stored after the schema's `String` cast; `guests` and `pricePerPlate` are stored as submitted, and their number cast only decides the 500 for a value that cannot be converted. The `createdAt` clock default is not modelled.
- Orders.OrderStore.Patch: string paths are cast as on create; `guests` is stored as submitted, and its number cast only decides the 500 for a value that cannot be converted.
- Decorations.DecorationStore.Create: `price`, `originalPrice` and `rating` go through `parseFloat` in the source. They are stored as submitted, so a non-numeric price that would be refused at save (500) is accepted here; `createdAt` is not modelled.
- Decorations.DecorationStore.Update: the same `parseFloat` conversion is not modelled. A non-numeric price sent with a file therefore answers 200 here, where the source first destroys the old handle and then fails to cast `NaN` at the update (500), leaving the record pointing at the destroyed image. The second 404 after `findByIdAndUpdate` is not reachable in a sequential model and is left out.
- Restaurants.RestaurantStore.Add: cuisines are taken as already parsed; the `JSON.parse` failure (500) and the schema's check on an empty cuisines array are not modelled.
- Restaurants.RestaurantStore.Update: cuisines are taken as already parsed, as for add. A name or city submitted as `undefined` is written as absent, where the update would drop it from `$set` and keep the stored value.
- Profiles.ProfileStore.Upsert: a field submitted as `undefined` is stored as absent rather than being dropped from `$set`, and the user id is cast to a string with `String`.
- Menus.MenuStore.Edit: the same unreachable second 404 after `findByIdAndUpdate` is left out. A form field submitted as `undefined` (title, description, category) is written as absent, where the update would drop it and keep the stored value.
- Menus.MenuStore.GetList: the stored `menuList` is a nested path with a `[]` default for `categories`, so in the source a menu whose list was never saved answers `{ categories: [] }` without `isSubmitted`; the model answers the literal fallback with `isSubmitted: false`, which is equally falsy.
