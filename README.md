# Food-delivery backend: handler logic in Dafny

This project models the request handlers at the centre of a TypeScript/Express food-delivery backend, and proves properties about them:

- **Customer accounts:** sign-up, login, OTP verification and re-issue, and profile edit.
- **Order placement:** the cart is reconciled against the store's food records, an order is built and stored, and the order is linked to the customer.
- **Customer request validation:** the rules for each customer request.
- **Vendor handlers:** login, profile merge, the service toggle, and adding a food.
- **Shopping queries:** vendors per pincode, the top ten by rating, and foods ready within 30 minutes.

Documents the handlers change in place (customers, vendors, the food and order collections) are Dafny classes, and their handlers are methods with `modifies` frames. Query results and request bodies are datatypes, and the declarative parts are functions. The only loops are the two the source has: the nested matching loop of `CreateOrder` and the vendor loop of `GetFoodsIn30Min`. Each is a method proved against a recursive specification function.

Modules:

- `Options`: the option type.
- `JsValues`: the JavaScript value semantics the handlers rely on:
  - `parseInt` as applied to a request string;
  - template-literal rendering of an integer;
  - `||` truthiness.
- `Models`: the record shapes, the `Customer` and `Vendor` documents, and the food collection.
- `Reconciliation`: the `CreateOrder` matching loop, and the cart-ordered reference it is proved equal to.
- `Ledger`: the order collection.
- `CustomerDto`: the request validators.
- `CustomerController`, `VendorController` and `ShoppingController`: the handlers.

Store lookups enter as their results. `profile`/`found`/`vendor` is the document found, or `null`. `registered` is the set of emails in use. `foods` is what the food query returned, constrained by `IsLookupResult`. The remaining inputs are:

- password hashing and checking, JWT issue and the email-format check, which are function parameters;
- random draws and the clock (`now`, in milliseconds), which are plain inputs.

Three points about the code itself that the model follows:

- Prices, units and totals are JavaScript numbers in the code. They are integers here (minor units).
- Order identifiers are drawn at random with no check against existing orders, so two orders can share one. `OrderId` proves only the range of the draw.
- Order lines come out in the order in which the store returns the foods, not in cart order. `ReconcileMatchesCart` proves that the lines still equal the cart's resolvable entries as a multiset, with the same total.

## Model

| member | source | states |
|---|---|---|
| JsValues.DecimalStringDenotes | src/controllers/CustomerController.ts:423 | the template-literal rendering of a non-negative integer is a non-empty digit string denoting it, with no leading zero |
| JsValues.DecimalStringLength | src/controllers/CustomerController.ts:423 | the rendering of an integer with 1 to 5 digits has that many characters |
| JsValues.ParseIntDecimalString | src/controllers/CustomerController.ts:220 | `parseInt` reads back the rendering of `n`, even when non-digit text follows |
| Models.Customer.constructor | src/controllers/CustomerController.ts:63-77 | a new customer document is unverified: empty names and address, coordinates 0, no orders |
| Models.FoodStore.Create | controllers/VendorController.ts:242-253 | a food is stored under its fresh id; every other entry is unchanged, and every entry stays filed under its own id |
| Reconciliation.TotalAppend | src/controllers/CustomerController.ts:426-438 | the running total of two runs of lines is the sum of their totals |
| Reconciliation.ReconcileMatchesCart | src/controllers/CustomerController.ts:429-442 | whatever order the store returns the found foods in, the nested loop yields the same multiset of lines and the same total as the cart-ordered priced lines |
| Reconciliation.PricedLinesFromCatalog | src/controllers/CustomerController.ts:435-442 | one line per cart entry whose id is in the catalog; a repeated id gives one line per entry. Each line is that catalog record with the entry's own unit count. There are no lines exactly when no cart id is in the catalog |
| Reconciliation.ReconcileItemsFromCatalog | src/controllers/CustomerController.ts:435-441 | every produced line's food is the stored record, and its unit is the count of a cart entry with that id; no price comes from the cart |
| Reconciliation.MatchOutcome | src/controllers/CustomerController.ts:429-447 | for any lookup result, the loop's lines are the priced cart lines as a multiset, with the same total, and there are none exactly when no cart id is in the catalog |
| Reconciliation.MatchCart | src/controllers/CustomerController.ts:425-442 | the foods-outer, cart-inner loop produces `Reconcile(foods, cart)`, and its running amount, starting from 0, is the sum of `price * unit` over exactly those lines |
| Ledger.OrderLedger.Create | src/controllers/CustomerController.ts:450-458 | `Order.create` appends the order and returns its position; the ledger stays valid exactly when the order is well formed |
| CustomerDto.PhoneRule | src/dto/Customer.dto.ts:7-10 | a sign-up phone is 7 to 12 characters, all ASCII digits |
| CustomerDto.PasswordRule | src/dto/Customer.dto.ts:12-23 | a password is 6 to 12 characters; the non-empty check adds nothing |
| CustomerDto.SignUpIsLoginPlusPhone | src/dto/Customer.dto.ts:3-24 | sign-up input is valid exactly when its email and password pass the login rules and its phone passes the phone rule |
| CustomerDto.EditProfileRule | src/dto/Customer.dto.ts:26-35 | a profile edit needs names of 3 to 16 characters and an address of 6 to 16, bounds included |
| CustomerController.GenerateOtp | src/utility/NotificationUtility.ts:5-13 | the OTP is a 4-digit integer in 1000..9999, and it expires 1,800,000 ms after it was issued |
| CustomerController.CustomerSignUp | src/controllers/CustomerController.ts:30-96 | 400 exactly for invalid input, then 409 exactly for an email in use. Otherwise a fresh customer is created with the hashed password, the salt, the OTP pair, unverified, with empty names and address, coordinates 0 and no orders, and a token is issued for it |
| CustomerController.CustomerLogin | src/controllers/CustomerController.ts:117-179 | each outcome holds exactly under its condition: 400 for invalid input, 404 for an unknown email, 401 for a wrong password, 403 for an unverified account. A token is issued only when all four checks pass |
| CustomerController.CheckOtp | src/controllers/CustomerController.ts:216-223 | expired exactly when the expiry is before now; accepted exactly when it is not expired and `parseInt` of the submitted text equals the stored OTP |
| CustomerController.IssuedOtpAccepted | src/controllers/CustomerController.ts:216-223 | an OTP submitted as its own decimal text is accepted up to and including its expiry instant |
| CustomerController.CustomerVerify | src/controllers/CustomerController.ts:196-241 | 401, then 404. The profile becomes verified only when the OTP check accepts; otherwise `verified` is unchanged |
| CustomerController.RequestOtp | src/controllers/CustomerController.ts:259-294 | 401, then 404; otherwise the stored OTP and expiry are replaced by a freshly generated pair, and on any rejection they are unchanged |
| CustomerController.EditCustomerProfile | src/controllers/CustomerController.ts:344-383 | 401, then 400 for invalid input, then 404. On success first name, last name and address are set; on any rejection they are unchanged |
| CustomerController.OrderId | src/controllers/CustomerController.ts:423 | the order id is a 4- or 5-digit decimal string that `parseInt` reads as an integer in 1000..90998 |
| CustomerController.CreateOrder | src/controllers/CustomerController.ts:401-466 | the guards run in order: 401, 404, then 400 "Cart is empty". An order is placed exactly when a signed-in customer with a profile sends a non-empty cart with at least one id in the catalog, so a partial match is never rejected. "No matching food items found" is returned exactly when no cart id is in the catalog, and on every rejection neither the ledger nor the profile changes. A placed order's lines are the cart's resolvable entries priced from the catalog (as a multiset), with their total, status "waiting", "COD" and an empty payment response. It is appended to the ledger, and the profile's order list grows by exactly its reference |
| CustomerController.RecordOrder | src/controllers/CustomerController.ts:450-467 | the order is appended to the ledger and its reference to the customer's order list; every reference the customer held still points into the ledger |
| VendorController.VendorLogin | controllers/VendorController.ts:20-57 | for the vendor found under the request email: 404 exactly for an unknown email, 400 exactly for a failing password, and a token over id, email, food types and name exactly when the password validates |
| VendorController.MergeKeepsOnFalsy | controllers/VendorController.ts:140-143 | the JavaScript logical-or merge keeps the stored string when the value is missing or empty; an empty array still replaces the stored one |
| VendorController.MergeIdempotent | controllers/VendorController.ts:140-143 | applying the same profile update twice gives the same fields as applying it once |
| VendorController.UpdateVendorProfile | controllers/VendorController.ts:131-152 | 404 exactly when no vendor was found. Otherwise name, address, phone and food types are merged by logical or, and no other field changes |
| VendorController.UpdateVendorService | controllers/VendorController.ts:181-199 | 404 exactly when no vendor was found; otherwise the availability is negated and the new value is reported |
| VendorController.ToggleTwice | controllers/VendorController.ts:190 | two toggles restore the original availability |
| VendorController.PlaceholderImageDropped | controllers/VendorController.ts:250 | as written, the stored food's `images` is empty, and it differs from the intended food only in that field |
| VendorController.AddFood | controllers/VendorController.ts:233-265 | for a found vendor, a food is created with its fields from the request, the vendor's id, rating 0 and images `["photo.png"]`. Its id is appended to the end of the vendor's food list, with earlier entries unchanged. Without a vendor nothing is stored |
| ShoppingController.Candidates | controllers/ShoppingController.ts:20-103 | the matched vendors are exactly those with the pincode and availability true, each as often as it is stored |
| ShoppingController.InsertByRating | controllers/ShoppingController.ts:21-61 | inserting into a list ranked by rating keeps it ranked and adds exactly one element |
| ShoppingController.RankByRating | controllers/ShoppingController.ts:21-61 | the sort returns a permutation of its input in non-increasing rating order |
| ShoppingController.Limit | controllers/ShoppingController.ts:62 | `limit(n)` returns a prefix of length `min(n, size)` |
| ShoppingController.RankedCut | controllers/ShoppingController.ts:61-62 | cutting a ranked list splits its multiset, and everything after the cut is rated no higher than anything before it |
| ShoppingController.TopOfRanking | controllers/ShoppingController.ts:60-62 | the first `n` of the ranking are sorted and drawn from the candidates, and every candidate left out is rated no higher than every one kept |
| ShoppingController.GetFoodAvailability | controllers/ShoppingController.ts:11-34 | 400 exactly for a missing or empty pincode; 404 exactly when no stored vendor serves it. Otherwise all matching vendors are returned, highest rated first, under the message "Available food in your area" |
| ShoppingController.GetTopRestaurants | controllers/ShoppingController.ts:51-74 | the same guards. Otherwise `min(10, matches)` vendors are returned in rating order, drawn from the matches, and no left-out match is rated higher than a returned one |
| ShoppingController.QuickOf | controllers/ShoppingController.ts:112-114 | a food is kept exactly when it is ready in 30 minutes or less, 30 included |
| ShoppingController.QuickOfAppend | controllers/ShoppingController.ts:112-114 | the filter keeps each vendor's food order |
| ShoppingController.QuickFoodsAppend | controllers/ShoppingController.ts:109-117 | the result is concatenated vendor by vendor |
| ShoppingController.QuickFoodsMembers | controllers/ShoppingController.ts:107-117 | a food is in the result exactly when a matched vendor has it and it is ready in 30 minutes or less |
| ShoppingController.QuickFoodsEmpty | controllers/ShoppingController.ts:106-124 | the list is empty exactly when no matched vendor has a quick food |
| ShoppingController.CollectQuickFoods | controllers/ShoppingController.ts:107-117 | the `forEach`/`push` loop yields exactly `QuickFoods` of the matched vendors: each vendor's quick foods, vendor after vendor |
| ShoppingController.GetFoodsIn30Min | controllers/ShoppingController.ts:91-128 | 400 for a missing or empty pincode; 404 exactly when no vendor matches. Otherwise 200 with the matched vendors' quick foods in storage order, even when that list is empty |

## Left out

- HTTP plumbing is not modelled: Express requests and responses, routes, app wiring and the database connection. Each handler returns an outcome value whose `Status()` gives the status code. The order and shopping outcomes also have a `Message()` with the fixed response message. The other handlers' messages are not modelled.
- Mongoose is not modelled: query building, `populate`, `save`, timestamps and the schema `toJSON` hooks. A query enters as its result (`foods`, `vendors`, the found document).
- `save()` is not separate: a method's field updates are the persisted state. Two writes in sequence (the order, then the profile) are modelled as always both taking effect.
- `GetOrders`, `GetOrderById`, `GetCustomerProfile` and `GetVendorProfile` are thin store reads and are not modelled. `GetVendorProfile` checks the user, looks the vendor up and answers 404 or 200 with the profile; like the other vendor handlers it does not stop after its 401 or 404 answer.
- The handlers that are empty stubs are not modelled: `GetFoods`, `SearchFoods`, `RestaurantById`, and those in controllers/AdminController.ts.
- Floating point is not modelled. Prices, units and totals are integers, and nothing is claimed about rounding drift in `price * unit`.
- Vendor and food `rating` and food `readyTime` are also JavaScript numbers in the source; here they are integers that are always present. ShoppingController.QuickOf therefore cannot show that the source's `readyTime <= 30` rejects a missing readyTime (undefined, compared as NaN) or handles a fractional one such as 30.5. Ratings that are missing or fractional are not ranked either.
- Random numbers and the clock are inputs: `draw` stands for the floor of `Math.random() * 9000` and of `Math.random() * 89999`, and `now` for `Date.now()`.
- Twilio SMS, bcrypt and JWT are parameters: `hash`, `passwordMatches` and `issue`. Sending the SMS is assumed to succeed.
- RequestOtp: when sending the SMS fails, the source answers 500 and then tries to answer 200 as well. That double response is not modelled.
- The vendor handlers do not stop after their 401 answer for a missing user; they go on to look up a vendor by an undefined id. That double response is not modelled. The vendor lookup result (`vendor`) is a parameter, and `FindVendor` is not part of this model.
- The email check (`IsEmail`) is the parameter `isEmail`. Unicode details of validator.js's `Length` are not modelled: a string's length is its number of characters.
- Request fields of a type other than string, and malformed ObjectIds (cast errors answered with 500), are not modelled.
- The 500 branches are not modelled: `Customer.create` or `Order.create` returning nothing, and thrown exceptions.
- CustomerController.CreateOrder: a stored order line keeps the whole food record, while the schema keeps only the food's id. A customer refers to an order by its ledger position rather than by an ObjectId.
- CustomerController.OrderId: uniqueness of order ids is not claimed, because the source draws them at random without a check.
- CustomerController.CreateOrder: negative or non-integer unit counts are not rejected, because the source does not validate them either.
- ShoppingController.RankByRating: vendors with equal ratings are returned in an order the store chooses. The contracts state only sortedness and permutation, and the model takes one such order.
- ShoppingController.GetTopRestaurants: this query does not populate `foods`, but the model uses the same vendor value for both queries.
- The older duplicate files at the repository root (controllers/CustomerController.ts, dto/Customer.dto.ts and similar) are not modelled. The versions under src/ are.

## Findings

| source | as written | input that shows it | evidently intended | confidence | as-written member | corrected member |
|---|---|---|---|---|---|---|
| controllers/VendorController.ts:250, src/models/Food.ts:25 | `Food.create` is passed the placeholder under the key `image`. The schema declares only `images`, so in strict mode the key is dropped and `images` takes its default `[]` | any AddFood request for a found vendor: the stored food has `images == []` | the new food carries `images == ["photo.png"]` | not executed | VendorController.StoredFoodAsWritten (see VendorController.PlaceholderImageDropped) | VendorController.NewFood (used by VendorController.AddFood) |
