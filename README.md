# Nature & Animaux — a Dafny model of the shop core

Nature & Animaux is an online pet shop. A Django backend keeps carts, orders, delivery choices and user
accounts in a relational database, and a product catalogue in MongoDB. An Angular frontend shows the cart,
the delivery page, the catalogue and an admin page for products. This project models the core of both halves
and proves what they promise.

- **Relational store** (`Db`). The user, cart, cart-item, order and delivery-choice tables are sequences of
  rows in primary-key order, each with its next key. `StoreOk` states their consistency:
  - unique ids and emails;
  - foreign keys that exist;
  - one order per cart and one choice per order;
  - item quantities of at least 1;
  - no two items of one cart for the same (product, variant).

  The `on_delete` cascades are functions proved to keep that consistency. The views are methods on a
  `Database` object. Each replaces the state by a pure function of the old state, and that function carries
  the proofs.
- **Cart** (`CartModels`, `CartSerializers`, `CartViews`):
  - line totals and subtotals;
  - input validation of an add request;
  - `_get_or_create_cart`;
  - merge-on-add;
  - the quantity patch clamped at 1;
  - delete scoped to the caller's cart;
  - the cart's delivery selection.
- **Orders and delivery choices** (`OrderModels`, `OrderViews`, `DeliveryModels`, `DeliveryViews`):
  - the guarded order creation that snapshots the subtotal;
  - the upsert of the delivery choice, which replaces the order total by subtotal + fees;
  - the ownership filters of the listings.
- **Products** (`ObjectIds`, `ProductViews`). The Mongo collection is a map from `_id` to document, plus the
  order in which documents were inserted. Object ids are 12 bytes. Their text form is 24 hexadecimal digits,
  and a parse/print round trip is proved.
- **Accounts** (`UserModels`, `UserManager`, `UserSerializers`, `UserViews`):
  - the manager's rules, including email normalization, which is proved idempotent;
  - registration, with email verification gating login;
  - the pending-email change and its confirmation.

  Tokens are modelled as decoded payloads. Sending mail is modelled as a boolean outcome.
- **Frontend components** (`CartComponent`, `DeliveryComponent`, `ProductListComponent`,
  `AdminProductsComponent`). Each is a class whose fields are the component's fields. Requests sent and
  alerts shown are recorded in sequences, and a server reply is a later method call. A reply that is None
  means the request failed.

Money is in integer cents and weights are in integer hundredths of a kilogram. Text is `seq<char>`, and
trimming and lower-casing are ASCII (module `Text`). Generic table helpers live in `Tables`; decimal
digit bounds and the response codes live in `Common`.

## Model

| member | source | states |
|---|---|---|
| CartModels.ItemsOf | backend/cart/models.py:13-15 | a cart's rows are exactly the table rows whose `cart` is that cart, in table order |
| CartModels.SumAppend | backend/cart/models.py:13-15 | the sum of line totals splits over concatenation |
| CartModels.ItemsOfAppend | backend/cart/models.py:13-15 | selecting a cart's rows commutes with splitting the table |
| CartModels.SubtotalAppend | backend/cart/models.py:13-15 | a cart's subtotal over a split table is the sum of the parts' subtotals |
| CartModels.SubtotalSingle | backend/cart/models.py:29-31 | one row adds its `unit_price × quantity` to its own cart's subtotal only |
| CartModels.SubtotalEmpty | backend/cart/models.py:13-15 | a cart without rows has no items and subtotal 0 |
| CartModels.SubtotalInsert | backend/cart/models.py:13-15 | inserting a row raises its cart's subtotal by its line total and no other cart's |
| CartModels.SubtotalReplace | backend/cart/models.py:13-15 | replacing a row changes each subtotal by the difference of the two line totals |
| CartModels.SubtotalRemove | backend/cart/models.py:13-15 | deleting a row lowers its cart's subtotal by its line total and no other cart's |
| CartModels.DeleteCartItems | backend/cart/models.py:18 | deleting a cart removes exactly its items and keeps id and (cart, product, variant) uniqueness |
| CartModels.DeleteCartItemsSubtotal | backend/cart/models.py:18 | after the cascade the deleted cart's subtotal is 0 and every other cart's is unchanged |
| CartModels.DeleteCartRow | backend/cart/models.py:7-15 | the cart table loses exactly the deleted cart |
| CartModels.DetachUser | backend/cart/models.py:8 | deleting a user sets `user` to null on their carts and changes nothing else |
| CartSerializers.UnitsFit | backend/cart/serializers.py:9-12 | an accepted decimal, scaled to its column unit, fits the column's digit bound |
| CartSerializers.InvalidFields | backend/cart/serializers.py:5-12 | no field fails exactly when every declared field bound holds; a quantity below 1 is reported |
| CartSerializers.ValidateAdd | backend/cart/serializers.py:5-12 | rejected iff some field fails, with those fields; accepted data carries the trimmed ids, title and image, the given quantity (>= 1), and price and weight scaled to hundredths within their digit bounds; an absent title, image or weight becomes "", "" or 0 |
| CartSerializers.ViewItems | backend/cart/serializers.py:15-30 | one serialized item per row, in order |
| CartSerializers.ViewSumItems | backend/cart/serializers.py:41-43 | the sum of the serialized line totals equals the sum of the rows' line totals |
| CartSerializers.SerializedSubtotal | backend/cart/serializers.py:33-43 | a serialized cart has the cart id, a subtotal equal to the sum of its items' totals, each `unit_price × quantity`, and 0 for no items |
| CartSerializers.RenderableViews | backend/cart/serializers.py:15-30 | a cart renders exactly when every serialized item's unit price and total fit `DecimalField(max_digits=10, decimal_places=2)` |
| CartSerializers.LargeLineNotRenderable | backend/cart/serializers.py:16 | a line of 1.00 × 100000000 (total 100000000.00) does not render |
| CartViews.LookupCart | backend/cart/views.py:8-15 | missing iff no cart has the key; found gives the only cart with the key; never ambiguous when keys are unique |
| CartViews.AfterGetOrCreate | backend/cart/views.py:8-15 | after the call a cart with the caller's key exists; only the cart table may grow; an existing key changes nothing; consistency and key uniqueness are kept |
| CartViews.CreateCartOk | backend/cart/views.py:8-15 | appending a cart with a fresh id and key keeps the store consistent and keys unique |
| CartViews.PickedCart | backend/cart/views.py:8-15 | the returned cart has the caller's key; with unique keys a cart is always returned |
| CartViews.GetOrCreateIdempotent | backend/cart/views.py:8-15 | a second call creates nothing and returns the same cart |
| CartViews.GetOrCreateCart | backend/cart/views.py:8-15 | the method's new state and result are those of `AfterGetOrCreate` and `PickedCart` |
| CartViews.AddLine | backend/cart/views.py:36-50 | a known (product, variant) keeps the item count; an unknown one appends exactly one new item; nothing but the item table changes |
| CartViews.AddLineKeeps | backend/cart/views.py:36-50 | items with another (product, variant) are untouched |
| CartViews.AddedLine | backend/cart/views.py:36-55 | the returned item is in the table under the requested (product, variant) |
| CartViews.MergeLineOk | backend/cart/views.py:48-50 | raising one item's quantity keeps the item table consistent with one item for its key |
| CartViews.AppendLineOk | backend/cart/views.py:36-47 | appending a new item with an unused key keeps the item table consistent |
| CartViews.MergeStoreOk | backend/cart/views.py:48-50 | raising one item's quantity keeps the whole store consistent and leaves one item for its key |
| CartViews.AppendStoreOk | backend/cart/views.py:36-47 | appending a fresh item for an existing cart keeps the whole store consistent and leaves one item for its key |
| CartViews.AddLineOk | backend/cart/views.py:36-50 | the add path keeps the store consistent |
| CartViews.AddLineCount | backend/cart/views.py:36-50 | after adding, exactly one item exists for the requested (cart, product, variant) |
| CartViews.AddedLineMerges | backend/cart/views.py:48-50 | on a known key the item only gains the requested quantity; its price, title, image and weight are kept |
| CartViews.AddLineSubtotal | backend/cart/views.py:36-50 | adding raises that cart's subtotal by the added quantity × the item's unit price; other carts are unchanged |
| CartViews.MergeSubtotal | backend/cart/views.py:48-50 | raising an item's quantity by q raises its cart's subtotal by q × unit price |
| CartViews.AddItem | backend/cart/views.py:30-55 | 500 when the cart lookup fails, 400 with the failing fields, 500 with only the cart lookup's change when a new item's text is longer than its column, otherwise 201 and the state of `AddLine` with the item's total and weight |
| CartViews.AddLineFits | backend/cart/models.py:19-24 | an add that does not fail keeps every line item within its column lengths |
| CartViews.ItemIn | backend/cart/views.py:64 | a found index holds item `pk` of the caller's cart; none found means no item `pk` belongs to that cart |
| CartViews.NewQuantity | backend/cart/views.py:65-66 | `max(1, int(q))`: at least 1, a missing quantity keeps the current one (1 when it is 0), and a non-integer is an error |
| CartViews.SetQuantity | backend/cart/views.py:65-67 | only that item's quantity changes; the store stays consistent; subtotals change by the line-total difference |
| CartViews.PatchItem | backend/cart/views.py:62-68 | 404 with no change for an item outside the caller's cart; otherwise 200 and the quantity set to `max(1, q)` with the new line total |
| CartViews.RemoveItem | backend/cart/views.py:72-73 | exactly that item goes; the store stays consistent; its cart's subtotal drops by its line total |
| CartViews.DeleteItem | backend/cart/views.py:70-74 | 404 with no change for an item outside the caller's cart, otherwise 204 and `RemoveItem` |
| CartViews.SetDelivery | backend/cart/views.py:100-102 | only the chosen cart's delivery selection changes |
| CartViews.SetDeliveryKeys | backend/cart/views.py:100-102 | a delivery selection changes no cart id or key, nor their uniqueness |
| CartViews.SetDeliveryCartsOk | backend/cart/views.py:100-102 | a delivery selection keeps the cart table consistent |
| CartViews.SetDeliveryOwner | backend/cart/views.py:100-102 | every cart after the selection is a cart from before it with the same id and owner |
| CartViews.SetDeliveryOk | backend/cart/views.py:100-102 | a delivery selection keeps the store consistent and cart keys unique |
| CartViews.ChooseCartDelivery | backend/cart/views.py:81-104 | 400 with no change for an empty or missing method or a missing price, a price of 0 accepted; otherwise the selection is recorded, then 200 with the serialized cart, or 500 (the selection kept) when an item's unit price or line total does not render in 10 digits |
| CartViews.CartDetail | backend/cart/views.py:21-23 | the caller's cart is created if needed, then serialized with 200, or 500 when an item's unit price or line total does not render in 10 digits |
| CartViews.CartRow | backend/cart/views.py:104 | the returned row is the cart with that id |
| OrderModels.OrdersOf | backend/orders/views.py:47-48 | the listing holds exactly the requester's orders |
| OrderModels.OrdersOfAppend | backend/orders/views.py:47-48 | a new order appears at the end of its owner's listing only |
| OrderModels.DoomedOrders | backend/orders/models.py:9-18 | exactly the orders that reference the deleted cart or user |
| OrderModels.RemainingOrders | backend/orders/models.py:9-18 | the orders of a deleted cart or user go and the rest stay, keeping id and cart uniqueness |
| OrderViews.ViewOrder | backend/orders/views.py:51-56 | an order is shown with its delivery choice when one exists |
| OrderViews.PlaceOrder | backend/orders/views.py:31-35 | exactly one order is added, with the requester, the cart and the cart's subtotal as total |
| OrderViews.AppendOrderOk | backend/orders/models.py:9-21 | an order for an existing user and an order-free cart keeps the order table consistent |
| OrderViews.PlaceOrderOk | backend/orders/views.py:27-35 | placing an order keeps the store consistent, and the cart is then taken |
| OrderViews.PlaceOrderListed | backend/orders/views.py:31-48 | the placed order ends the owner's listing; other users' listings are unchanged |
| OrderViews.CreateOrder | backend/orders/views.py:15-38 | 400 for a missing id, 404 for an unknown cart, 400 for a cart that already has an order, each with no change; otherwise 201 and `PlaceOrder` |
| OrderViews.OrderDetail | backend/orders/views.py:51-56 | found iff an order has that id, and it is that order |
| DeliveryModels.RemainingChoices | backend/deliveries/models.py:16 | the choices of deleted orders go and the rest stay, keeping id and order uniqueness |
| DeliveryViews.UpsertChoiceOk | backend/deliveries/views.py:27-30 | the upsert keeps the choice table consistent with exactly one choice for the order |
| DeliveryViews.UpsertChoiceContent | backend/deliveries/views.py:27-30 | the order's choice carries the new mode and fees; no other order's choice is touched |
| DeliveryViews.RetotalOk | backend/deliveries/views.py:33-34 | changing an order's total keeps the order table consistent |
| DeliveryViews.ChooseDelivery | backend/deliveries/views.py:27-34 | only that order's total changes, and it becomes the cart's subtotal + the new fees |
| DeliveryViews.ChooseDeliveryOk | backend/deliveries/views.py:27-34 | choosing keeps the store consistent with one choice for the order |
| DeliveryViews.ChooseDeliveryLastWins | backend/deliveries/views.py:27-34 | a second choice gives the same state as choosing only the second: fees replace, never add |
| DeliveryViews.UpsertTwice | backend/deliveries/views.py:27-30 | a second upsert for an order overwrites the first and uses no new id |
| DeliveryViews.ChoiceOf | backend/deliveries/views.py:27-37 | the order's one choice, if any |
| DeliveryViews.PostDeliveryChoice | backend/deliveries/views.py:16-37 | 404 with no change for an unknown order; missing fees are 0.00; otherwise 200, `ChooseDelivery`, and the returned choice has the order, mode and fees |
| DeliveryViews.ChoicesOfUser | backend/deliveries/views.py:46-47 | exactly the choices whose order belongs to the requester |
| DeliveryViews.ChoiceDetail | backend/deliveries/views.py:50-55 | found iff a choice has that id, and it is that choice |
| DeliveryViews.RemoveChoice | backend/deliveries/views.py:61-63 | exactly that choice goes and the store stays consistent |
| DeliveryViews.DeleteChoice | backend/deliveries/views.py:58-63 | 404 with no change for an unknown id, otherwise 204 and only that choice removed |
| Db.DeleteCart | backend/cart/models.py:18 | deleting a cart removes it, its items, its order and that order's choice, keeps the rest and stays consistent |
| Db.DeleteUser | backend/orders/models.py:9-13 | deleting a user detaches their carts, removes their orders and those orders' choices, keeps items and stays consistent |
| Db.DeleteCartOk | backend/orders/models.py:14-18 | the cart cascade keeps the store consistent |
| Db.DeleteUserOk | backend/cart/models.py:8 | the user cascade keeps the store consistent |
| Db.DeleteCartRowIds | backend/cart/models.py:7-15 | the deleted cart's id is the only one that goes |
| Db.DeleteUserRowIds | backend/users/models.py:38-40 | the deleted user's id is the only one that goes |
| Db.RemainingOrderIds | backend/orders/models.py:9-18 | the surviving order ids are the old ones minus those of the cascaded orders |
| Db.EmptyOk | backend/users/models.py:40 | the empty store is consistent with unique cart keys |
| Db.WithItemsOk | backend/cart/models.py:17-27 | a consistent item table keeps the store consistent |
| Db.WithOrdersOk | backend/orders/models.py:6-21 | consistent order and choice tables keep the store consistent |
| Db.Database.constructor | backend/users/models.py:40 | a new database is empty and consistent |
| UserModels.DeleteUserRow | backend/users/models.py:38-40 | the user table loses exactly the deleted user and keeps ids and emails unique |
| UserModels.NewUser | backend/users/models.py:19-20 | the given email, password and names, no pending email; each flag is taken as given, else active, non-staff, non-superuser, unverified |
| UserModels.SuperuserExtra | backend/users/models.py:26-34 | both flags default to true; either set to false raises the matching message |
| UserModels.LastAt | backend/users/models.py:17 | the split point is the last '@' |
| UserModels.NormalizeParts | backend/users/models.py:17 | an address without '@' is kept; otherwise the domain part is lower-cased and the local part kept |
| UserModels.LastAtSplit | backend/users/models.py:17 | the last '@' of `a@b` is the one before `b` when `b` has none |
| UserModels.NormalizeIdempotent | backend/users/models.py:17 | normalizing twice is normalizing once |
| UserModels.NormalizeFixed | backend/users/models.py:17 | an address already stripped with a lower-case domain is its own normal form |
| UserManager.InsertUser | backend/users/models.py:19-21 | exactly one user is appended, built by `NewUser` with the next id |
| UserManager.InsertUserOk | backend/users/models.py:40 | a user with an unused email keeps the store consistent |
| UserManager.CreateUser | backend/users/models.py:13-24 | an empty or missing email raises with no change; a taken normalized email fails; otherwise `InsertUser` with the normalized email |
| UserManager.CreateSuperuser | backend/users/models.py:26-36 | a flag set to false raises with no change; otherwise the outcome of `create_user` with both flags set: a missing or empty email raises, a taken normalized email gives IntegrityError, each with no change, and any other call inserts a staff superuser |
| UserSerializers.RegisterErrors | backend/users/serializers.py:6-10 | each field is reported iff it fails its bound; no errors iff all hold |
| UserSerializers.NameOrEmpty | backend/users/serializers.py:15-16 | an absent name becomes "" |
| UserSerializers.RegisterExtra | backend/users/serializers.py:12-19 | registration passes the names (default "") and no flags to `create_user` |
| UserSerializers.ValidateNewEmail | backend/users/serializers.py:63-66 | accepted iff no user holds the address, else "Cet email est déjà utilisé." |
| UserSerializers.RequestChange | backend/users/serializers.py:68-72 | only `pending_email` changes |
| UserSerializers.ConfirmPending | backend/users/serializers.py:79-88 | fails iff nothing is pending; else the pending address becomes the email, is cleared and the user is verified |
| UserSerializers.RequestThenConfirm | backend/users/serializers.py:68-88 | requesting then confirming replaces the email and verifies the user |
| UserSerializers.ConfirmTwiceFails | backend/users/serializers.py:81-87 | a second confirmation fails |
| UserViews.TokenUser | backend/users/views.py:84-85 | a token names a row iff it decodes to the id of an existing user |
| UserViews.SaveUser | backend/users/views.py:90-91 | only that row changes |
| UserViews.SaveUserOk | backend/users/views.py:90-91 | saving a row under its id and a free or unchanged email keeps the store consistent |
| UserViews.SaveUserKeepsToken | backend/users/views.py:243-244 | after such a save the token names the same row |
| UserViews.Register | backend/users/views.py:32-76 | an email already held gives 400 and no user; serializer errors give 400 and no user; a taken normalized address is a 500; otherwise one active, unverified user with the normalized email, and 201 once the mail is sent |
| UserViews.Verify | backend/users/views.py:90 | only the verified flag changes, to true |
| UserViews.ConfirmRegistration | backend/users/views.py:82-98 | expired or invalid links give 400 and no change; an already verified user gets success and no change; otherwise the user is verified |
| UserViews.ConfirmRegistrationIdempotent | backend/users/views.py:87-93 | following a link twice equals following it once |
| UserViews.Login | backend/users/views.py:108-133 | bad credentials give 400; an unverified user gets 403 and no tokens; a verified one gets 200 and their details |
| UserViews.Logout | backend/users/views.py:140-151 | a missing token gives 400 "Token manquant"; success iff the token is given and blacklisted |
| UserViews.RequestEmailChange | backend/users/views.py:201-235 | an invalid or taken address gives 400 and no change; otherwise only the user's pending email is set and 200 |
| UserViews.ConfirmEmailChange | backend/users/views.py:241-259 | nothing changes unless confirmed; expired or invalid links give 400; a `new_email` other than the pending one gives 400; otherwise the pending address becomes the email |
| UserViews.ConfirmEmailChangeOnce | backend/users/views.py:246-252 | after a confirmation the same link is refused |
| ObjectIds.HexVal | backend/products/views.py:59-60 | a hexadecimal digit's value is below 16 |
| ObjectIds.HexChar | backend/products/views.py:38-39 | the printed digit is lower-case hexadecimal and reads back as its value |
| ObjectIds.Byte | backend/products/views.py:62 | the byte of two digits has them as its high and low halves |
| ObjectIds.Parse | backend/products/views.py:59-62 | parses iff the text is 24 hexadecimal digits, each pair one byte |
| ObjectIds.Format | backend/products/views.py:38-39 | the text of an id is 24 lower-case hexadecimal digits |
| ObjectIds.DigitsOf | backend/products/views.py:38-39 | byte i prints as its high then its low digit |
| ObjectIds.ParseFormat | backend/products/views.py:38-39 | printing then parsing an id gives it back |
| ObjectIds.HexCharVal | backend/products/views.py:62 | reprinting a digit's value lower-cases it |
| ObjectIds.FormatParse | backend/products/views.py:59-64 | parsing then printing a valid id gives its lower-case form |
| ProductViews.IdText | backend/products/views.py:38-39 | an object id prints as its hexadecimal text, a string as itself |
| ProductViews.Show | backend/products/views.py:38-39 | only `_id` changes, to its text |
| ProductViews.FindAll | backend/products/views.py:35 | exactly the stored documents that match the filter |
| ProductViews.FindAllEverything | backend/products/views.py:35 | an empty filter returns every document, in collection order |
| ProductViews.ShowAll | backend/products/views.py:38-39 | every returned document has its `_id` converted, in order |
| ProductViews.QueryFilter | backend/products/views.py:26-32 | the filter holds exactly the title, category and brand present in the query, with their values |
| ProductViews.BuildFilter | backend/products/views.py:26-32 | the conditional updates build `QueryFilter` |
| ProductViews.MissingFields | backend/products/views.py:78-81 | exactly the absent required fields, in the order title, category, variations |
| ProductViews.SetFields | backend/products/views.py:98-99 | supplied fields take the new values and all other fields are kept |
| ProductViews.SetFieldsIdempotent | backend/products/views.py:98-99 | the same update twice equals it once |
| ProductViews.Detail | backend/products/views.py:56-69 | 400 iff the id is malformed, 404 iff unknown, else the document with its id as text |
| ProductViews.DetailShowsPath | backend/products/views.py:56-69 | a found product shows the lower-cased path id |
| ProductViews.CreateThenDetail | backend/products/views.py:83-85 | a created product is found again under its new id |
| ProductViews.UpdateThenDetail | backend/products/views.py:91-105 | after an update the detail shows the posted fields and keeps the rest |
| ProductViews.DeleteThenDetail | backend/products/views.py:109-120 | after a delete the product is not found |
| ProductViews.ProductCollection.constructor | backend/products/views.py:35 | the collection starts empty |
| ProductViews.ProductCollection.FoundHaveIds | backend/products/views.py:35-39 | every found document carries an `_id` |
| ProductViews.ProductCollection.List | backend/products/views.py:23-51 | the matching documents with their ids as text |
| ProductViews.ProductCollection.Create | backend/products/views.py:73-87 | missing fields give 400 and no insert; otherwise exactly one document is inserted and returned with its id and 201 |
| ProductViews.ProductCollection.Update | backend/products/views.py:91-105 | a malformed id gives 400 and an unknown one 404, both with no change; otherwise only the posted fields change |
| ProductViews.ProductCollection.Delete | backend/products/views.py:109-120 | a malformed id gives 400 and an unknown one 404, both with no change; otherwise exactly that document is removed |
| CartComponent.ItemsOf | frontend/src/app/cart/cart.component.ts:43-44 | missing items default to an empty list |
| CartComponent.SubtotalOf | frontend/src/app/cart/cart.component.ts:45 | a missing subtotal defaults to 0 |
| CartComponent.QtyMapSnoc | frontend/src/app/cart/cart.component.ts:48 | each loop step sets one more item's quantity in the map |
| CartComponent.QtyMapSpec | frontend/src/app/cart/cart.component.ts:47-48 | the rebuilt map has exactly the returned ids, and the last line of an id gives its quantity |
| CartComponent.QtyMapRecordsEach | frontend/src/app/cart/cart.component.ts:47-48 | with distinct ids every item's server quantity is recorded |
| CartComponent.Incremented | frontend/src/app/cart/cart.component.ts:58-61 | the new quantity exceeds the shown one |
| CartComponent.Decremented | frontend/src/app/cart/cart.component.ts:64-67 | the new quantity is the shown one minus 1, never below 1 |
| CartComponent.RefreshedLineTotals | frontend/src/app/cart/cart.component.ts:54-56 | right after a refresh each shown quantity is the server's, and each line total is unit price × that quantity |
| CartComponent.StoreOnlyThatLine | frontend/src/app/cart/cart.component.ts:54-56 | storing a quantity changes only that line's shown quantity |
| CartComponent.IncrThenDecr | frontend/src/app/cart/cart.component.ts:58-67 | decrementing right after incrementing restores a quantity of at least 1 |
| CartComponent.CartPage.constructor | frontend/src/app/cart/cart.component.ts:40-52 | the page starts empty and not loaded |
| CartComponent.CartPage.Refresh | frontend/src/app/cart/cart.component.ts:40-52 | a failed request only marks the page loaded; a reply sets items and subtotal with defaults and rebuilds the map from the server's quantities |
| CartComponent.CartPage.Incr | frontend/src/app/cart/cart.component.ts:58-62 | stores and sends the shown quantity + 1 |
| CartComponent.CartPage.Decr | frontend/src/app/cart/cart.component.ts:64-68 | stores and sends the shown quantity − 1, at least 1 |
| CartComponent.CartPage.Remove | frontend/src/app/cart/cart.component.ts:70-72 | only sends the removal |
| DeliveryComponent.TotalWeightAppend | frontend/src/app/delivery/delivery.component.ts:42-45 | the total weight splits over concatenation of the items |
| DeliveryComponent.TotalWeightBounds | frontend/src/app/delivery/delivery.component.ts:42-45 | non-negative weights and quantities give a total of at least 0 and at least each line's weight × quantity |
| DeliveryComponent.Chosen | frontend/src/app/delivery/delivery.component.ts:67 | the first option whose mode is selected; none iff no option matches |
| DeliveryComponent.SelectedFees | frontend/src/app/delivery/delivery.component.ts:66-69 | the chosen option's fees, 0 when none |
| DeliveryComponent.TotalCases | frontend/src/app/delivery/delivery.component.ts:71-73 | the subtotal with no matching selection; otherwise subtotal + the first match's fees |
| DeliveryComponent.DeliveryPage.constructor | frontend/src/app/delivery/delivery.component.ts:22-27 | the page starts empty |
| DeliveryComponent.DeliveryPage.LoadCart | frontend/src/app/delivery/delivery.component.ts:34-52 | items and subtotal with defaults, the total weight, and one options request for exactly that weight |
| DeliveryComponent.DeliveryPage.LoadOptions | frontend/src/app/delivery/delivery.component.ts:55-64 | the returned options, or an empty list when missing |
| DeliveryComponent.DeliveryPage.Select | frontend/src/app/delivery/delivery.component.ts:24 | only the selection changes |
| DeliveryComponent.DeliveryPage.ConfirmDelivery | frontend/src/app/delivery/delivery.component.ts:75-90 | with no selection it only asks to choose; otherwise it shows the option, subtotal, weight, fees and total |
| ProductListComponent.Normalize | frontend/src/app/product-list/product-list.component.ts:32-37 | blank titles and categories and null prices get their texts; other fields are kept |
| ProductListComponent.NormalizeAll | frontend/src/app/product-list/product-list.component.ts:32 | every product is normalized, in order |
| ProductListComponent.FirstSeenSpec | frontend/src/app/product-list/product-list.component.ts:42 | the non-empty texts, each once, in order of first appearance |
| ProductListComponent.CategoriesOfProducts | frontend/src/app/product-list/product-list.component.ts:42 | the offered categories are exactly the products' non-empty ones, each once, including every non-blank one |
| ProductListComponent.Prices | frontend/src/app/product-list/product-list.component.ts:61-63 | exactly the non-null variation prices |
| ProductListComponent.Min | frontend/src/app/product-list/product-list.component.ts:65 | a member no larger than any other |
| ProductListComponent.MinPrice | frontend/src/app/product-list/product-list.component.ts:55-66 | none iff no variation has a price; otherwise the least non-null price |
| ProductListComponent.Toggled | frontend/src/app/product-list/product-list.component.ts:69-74 | the category's membership flips and no other's changes |
| ProductListComponent.ToggleTwice | frontend/src/app/product-list/product-list.component.ts:69-76 | toggling twice restores membership, and the very list when it was unselected |
| ProductListComponent.Visible | frontend/src/app/product-list/product-list.component.ts:79-85 | every product with no selection; otherwise exactly the products of a selected category |
| ProductListComponent.NextMenu | frontend/src/app/product-list/product-list.component.ts:99-101 | the active menu closes and any other opens |
| ProductListComponent.ProductList.constructor | frontend/src/app/product-list/product-list.component.ts:13-20 | the page starts empty with menus closed |
| ProductListComponent.ProductList.Fetch | frontend/src/app/product-list/product-list.component.ts:29-51 | a failure sets the error text; a reply sets the normalized products, all shown, and their categories |
| ProductListComponent.ProductList.ApplyFilters | frontend/src/app/product-list/product-list.component.ts:79-85 | the shown products become `Visible` |
| ProductListComponent.ProductList.ToggleCategoryFilter | frontend/src/app/product-list/product-list.component.ts:69-76 | the selection is toggled and the filter reapplied |
| ProductListComponent.ProductList.ToggleBurgerMenu | frontend/src/app/product-list/product-list.component.ts:94-97 | the burger flips, and closing it also closes the active menu |
| ProductListComponent.ProductList.ToggleMenu | frontend/src/app/product-list/product-list.component.ts:99-101 | the active menu becomes `NextMenu` |
| ProductListComponent.ProductList.CloseMenu | frontend/src/app/product-list/product-list.component.ts:103-106 | both menus close |
| ProductListComponent.ProductList.OnClickOutside | frontend/src/app/product-list/product-list.component.ts:108-117 | a click outside the menus closes both; a click inside changes nothing |
| AdminProductsComponent.BlankDraftsInvalid | frontend/src/app/admin/admin-products/admin-products.component.ts:158-167 | the initial form, and any form with a blank variation row, cannot be saved |
| AdminProductsComponent.SpliceStart | frontend/src/app/admin/admin-products/admin-products.component.ts:140 | a negative index counts from the end, clamped at 0 |
| AdminProductsComponent.SpliceOne | frontend/src/app/admin/admin-products/admin-products.component.ts:140 | one entry is removed at the start index, or none when it is past the end |
| AdminProductsComponent.Titles | frontend/src/app/admin/admin-products/admin-products.component.ts:88 | the titles of the products, in order |
| AdminProductsComponent.FilterTitles | frontend/src/app/admin/admin-products/admin-products.component.ts:85-97 | exactly the titles containing the filter text, ignoring case |
| AdminProductsComponent.FilterTitlesSnoc | frontend/src/app/admin/admin-products/admin-products.component.ts:85-97 | one more product adds its title at the end exactly when it matches, so the titles keep list order and duplicates |
| AdminProductsComponent.EmptyFilterListsAll | frontend/src/app/admin/admin-products/admin-products.component.ts:85-90 | an empty filter lists every title, in order |
| AdminProductsComponent.SkuFor | frontend/src/app/admin/admin-products/admin-products.component.ts:99-102 | the sku of the first product with the selected title, else "N/A" |
| AdminProductsComponent.AdminProducts.constructor | frontend/src/app/admin/admin-products/admin-products.component.ts:34-42 | the form starts with one blank variation row |
| AdminProductsComponent.AdminProducts.SetActiveTab | frontend/src/app/admin/admin-products/admin-products.component.ts:68-70 | only the tab changes |
| AdminProductsComponent.AdminProducts.LoadProducts | frontend/src/app/admin/admin-products/admin-products.component.ts:72-83 | the reply's products, or an empty list on failure |
| AdminProductsComponent.AdminProducts.SetSelection | frontend/src/app/admin/admin-products/admin-products.component.ts:26 | only the selected title changes |
| AdminProductsComponent.AdminProducts.SetTitleFilter | frontend/src/app/admin/admin-products/admin-products.component.ts:30 | only the search text changes |
| AdminProductsComponent.AdminProducts.UpdateSelectedProductSku | frontend/src/app/admin/admin-products/admin-products.component.ts:99-102 | the shown sku becomes `SkuFor` |
| AdminProductsComponent.AdminProducts.DeleteProduct | frontend/src/app/admin/admin-products/admin-products.component.ts:104-112 | with no product of the selected title it only alerts; otherwise it sends the delete for the first match |
| AdminProductsComponent.AdminProducts.DeleteDone | frontend/src/app/admin/admin-products/admin-products.component.ts:113-127 | success alerts, reloads and clears the selection and sku; failure only alerts |
| AdminProductsComponent.AdminProducts.EditDetails | frontend/src/app/admin/admin-products/admin-products.component.ts:34-42 | only the edited form fields change |
| AdminProductsComponent.AdminProducts.EditVariation | frontend/src/app/admin/admin-products/admin-products.component.ts:40 | only that variation row changes |
| AdminProductsComponent.AdminProducts.ImageLoaded | frontend/src/app/admin/admin-products/admin-products.component.ts:150-153 | the preview and the draft's image take the data URL |
| AdminProductsComponent.AdminProducts.AddVariation | frontend/src/app/admin/admin-products/admin-products.component.ts:134-136 | exactly one blank row is appended |
| AdminProductsComponent.AdminProducts.RemoveVariation | frontend/src/app/admin/admin-products/admin-products.component.ts:138-144 | with more than one row it splices one out; otherwise it only alerts; the list never becomes empty |
| AdminProductsComponent.AdminProducts.SaveProduct | frontend/src/app/admin/admin-products/admin-products.component.ts:169-175 | an invalid draft only alerts and sends nothing; a valid one is sent |
| AdminProductsComponent.AdminProducts.SaveDone | frontend/src/app/admin/admin-products/admin-products.component.ts:176-190 | success alerts, reloads and clears the search and preview; failure only alerts |

## Left out

- The tiered carrier prices (`MockDeliveryOptionsView`) are only imported by the delivery routes; no tariff table is modelled.
- Pagination of the product list (DRF `PageNumberPagination`) is not modelled: `List` returns all matches as one page.
- JWT encoding, decoding and expiry are abstracted to a decoded `Token`. Sending mail and blacklisting refresh tokens are boolean outcomes. `authenticate` is an outcome given to `Login`.
- The permission and authentication classes are not modelled. A view is modelled as called by the user it names. The order and delivery views do not check ownership beyond what they filter, and the model keeps that.
- Concurrent requests are not modelled. Each view is one sequential transaction over the store.
- Floating-point `Number(...)` and `toFixed` arithmetic in the frontend are replaced by integer cents and hundredths.
- Email syntax (`EmailField`) is a boolean `wellFormed` input. URL handling is not modelled.
- Database numeric overflow and rounding on save are not modelled beyond the serializer's digit bounds.
- Unicode case folding and whitespace are not modelled: `Lower` and `Trim` cover ASCII only.
- DRF's trimming of `CharField` input is modelled for the add-to-cart serializer only. The user serializers (`UserSerializers.RegisterErrors`, `UserSerializers.ValidateNewEmail`) take the email, names and password as given.
- The cart item `weight` column, the cart `delivery_method`/`delivery_price` columns, and the user `pending_email`/`is_email_verified` columns are read and written by the views but not declared by the models. They are modelled as the views use them.
- `ProfileView`, `UpdateProfileView`, `GoogleLogin` and the address and payment serializers are not modelled, and nor are the product tests.
- `ObjectIds.Parse`: accepts exactly 24 hexadecimal digits. bson's `is_valid` also accepts a 24-character text that `bytes.fromhex` reads with whitespace between digit pairs, and the model refuses such a text.
- `ProductViews.IdText`: an `_id` that is an array or a sub-document prints as "" instead of its Python text.
- `ProductViews.SetFields`: dotted `$set` paths and `$`-prefixed keys are not modelled; each key sets a top-level field.
- MongoDB's natural order is taken to be insertion order. The text of exceptions in 500 replies is not modelled.
- `trackBy` functions, the SEO title and meta tags, and console logging in the components are not modelled.
- `ProductListComponent.ProductList.OnClickOutside`: the DOM `closest` checks are one boolean input.
- `AdminProductsComponent.AdminProducts.ImageLoaded`: reading the file is abstracted; the method is the `onload` callback.
- `AdminProductsComponent.SkuFor`: a listed product is assumed to carry a `sku`.
- Asynchronous replies are explicit method calls, so any interleaving of replies can be expressed but none is assumed.
- `ProductListComponent.Visible` states membership and length. Keeping the original order follows from its definition by `Filter` and is not stated separately.
- The user table's default ordering by `date_joined` is not modelled: user rows are kept in primary-key order.
