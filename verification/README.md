# Bistro Boss back end: store, gates, settlement and reports

A Dafny model of the restaurant ordering back end in `index.js`: an
Express/MongoDB server over five collections (users, menu, reviews, cart,
payments). The model keeps what the route handlers decide. It drops the HTTP
and database plumbing.

- **Store** (`store.dfy`, class `Bistro.Store`). Users, menu items and cart
  entries are maps from `_id` to document. Payments are an append-only sequence
  in insertion order. A counter stands for the driver's ObjectId generator.
  `Valid()` says that user emails are unique and that every stored key lies
  below the counter. Each mutating handler is a method. Its `ensures` gives the
  new state as a function of the old one and says what else stays unchanged.
- **Access gates** (`access.dfy`). `verifyToken` takes a credential value:
  missing, invalid, or the decoded claims. `verifyAdmin` and the self-only
  email check are pure functions of that value and the current users. Their
  answers are 401 or 403, as in the source.
- **Users** (`users.dfy`). Registration inserts a user only when the email is
  new. Promotion sets the role to `"admin"`. Removal deletes the document. The
  two read routes are modelled too: the user list and the "is this email an
  admin" check.
- **Cart** (`cart.dfy`). The module covers the listing filter, single delete,
  and the bulk delete that settlement performs (`deleteMany` on
  `_id $in cartIds`).
- **Payments** (`payments.dfy`). It covers the per-owner listing and the admin
  revenue: a `$group` with `_id: null` that yields no document when there are
  no payments.
- **Order statistics** (`order_stats.dfy`). The `$lookup`/`$unwind`/`$group`
  pipeline becomes functions: a per-payment lookup, line items, and a
  group-by-category fold. They are proved against reference counts and sums.

Prices are integer cents, so the report's `$round` to two decimals is the
identity. Read-only routes are functions applied to the store's fields. Order
settlement is `Settle`: it appends the payment first, then deletes the listed
cart entries. Its delete count is the number of distinct listed ids that still
named an entry.

Three behaviours of the code are kept as written:

- Registration stores the request body verbatim, role included. A new email
  registered with role `"admin"` therefore passes the admin gate
  (`RegistrationCanClaimAdmin`).
- The self-only checks have no admin override. An admin asking for another
  user's payments or admin status also gets 403 (`VerifySelf`).
- The cart listing filters only on a truthy `email`. So `?email=` with an empty
  value lists every entry (`UnfilteredViewIsWholeCart`).

## Model

| member | source | states |
|---|---|---|
| `Access.IsAdmin` | index.js:71-74 | reference definition of the admin test: some stored user has the email and role "admin"; `VerifyAdmin`, `AdminIsTheUserWithThatEmail`, `PromotionTakesEffect` and `RemovalRevokesAdmin` state its behaviour |
| `Access.VerifyToken` | index.js:53-64 | a missing header and an unverifiable token both give 401; otherwise the request proceeds as the token's email |
| `Access.VerifyAdmin` | index.js:70-78 | passes iff the token verifies and a stored user with the token's email has role "admin"; a missing user or another role is 403, a bad token 401 |
| `Access.VerifySelf` | index.js:87-91 | passes iff the token verifies and its email equals the path email; a different email is 403 |
| `Users.UniqueEmails` | index.js:106-108 | reference definition of the invariant the registration check keeps: no two users share an email; `RegistrationKeepsEmailsUnique`, `PromotionSetsOneRole` and `RemovalRevokesAdmin` prove it preserved |
| `Users.EmailTaken` | index.js:106-107 | reference definition of the `findOne({ email })` test: some stored user has the email; `RegistrationKeepsEmailsUnique` states that registration always leaves it true |
| `Users.Registered` | index.js:106-110 | after registration the email is taken, the key set grows by at most the new id, and every existing user is kept; `RegistrationKeepsEmailsUnique` and `RegisterTwiceIsRegisterOnce` state the rest |
| `Users.Promoted` | index.js:115-121 | promotion keeps the key set, every name and email, sets the role of that id to "admin" and leaves every other role; `PromotionSetsOneRole` and `PromotionTakesEffect` state the rest |
| `Users.RegistrationKeepsEmailsUnique` | index.js:102-111 | a taken email leaves the users unchanged; otherwise exactly one user, the body, is added under the new id; emails stay unique and the email is registered afterwards |
| `Users.RegisterTwiceIsRegisterOnce` | index.js:106-108 | registering the same body again changes nothing |
| `Users.RegistrationCanClaimAdmin` | index.js:103-109 | a new email registered with role "admin" passes the admin gate, because the body is stored verbatim |
| `Users.PromotionSetsOneRole` | index.js:113-121 | promotion sets that user's role to "admin", keeps every other user, the key set and all emails, and promoting twice equals promoting once |
| `Users.AdminIsTheUserWithThatEmail` | index.js:71-74 | with unique emails, the admin gate's findOne-then-role test is decided by the one user holding that email |
| `Users.PromotionTakesEffect` | index.js:113-121 | the admin check on the next request passes for the promoted user, since roles are looked up afresh |
| `Users.RemovalRevokesAdmin` | index.js:126-131 | deleting a user keeps emails unique, and that email then fails the admin gate with 403 |
| `Users.ListUsers` | index.js:82-85 | admins get the whole users collection; others get 401 or 403 |
| `Users.AdminStatus` | index.js:87-100 | only the token's own email may be asked about; the answer is true iff a stored user with that email is an admin, so false when there is none |
| `Cart.CartView` | index.js:194-203 | the listing is a sub-map of the cart: every entry shown is the stored entry |
| `Cart.UnfilteredViewIsWholeCart` | index.js:195-199 | no email, or an empty one, lists the whole cart |
| `Cart.OwnerViewIsOwnersEntries` | index.js:196-200 | a non-empty email lists exactly the entries with that email |
| `Cart.RemoveOneEntry` | index.js:204-209 | deleting by id removes that entry if present, shrinks the cart by the reported 0 or 1, and keeps every other entry |
| `Cart.WithoutIds` | index.js:258-264 | after the bulk delete no listed id remains and every unlisted entry is unchanged |
| `Cart.DeletedCount` | index.js:264 | the `deleteMany` count is at most the ids listed and the entries stored, and is 0 iff no listed id names an entry; `SettlementCount` ties it to the entries removed |
| `Cart.DistinctIdsAtMostLength` | index.js:260 | an id list names at most as many distinct ids as its length |
| `Cart.SettlementCount` | index.js:258-264 | the delete count equals the number of entries that disappeared, i.e. the existing entries whose id is listed, and is at most the number of ids listed |
| `Cart.SettleAgainDeletesNothing` | index.js:258-264 | repeating the bulk delete with the same ids deletes 0 and leaves the cart as it was |
| `Cart.SettledViewIsViewSettled` | index.js:194-203 | listing after settlement equals settling the listing, so an owner whose entries were all paid for sees an empty cart |
| `Payments.PaymentsOf` | index.js:243-247 | the listing is no longer than the history and holds only payments with that email; `PaymentsOfAreTheOwners` and `PaymentsOfConcat` state the rest |
| `Payments.PaymentsOfAreTheOwners` | index.js:243-247 | the owner's listing holds exactly the payments with that email, each as many times as the history holds it |
| `Payments.PaymentsOfConcat` | index.js:247 | the listing is an order-keeping filter: it distributes over a split of the history |
| `Payments.ListPayments` | index.js:241-248 | 401 without a valid token, 403 when the path email is not the token's, otherwise exactly that owner's payments, the same sequence as `PaymentsOf` |
| `Payments.TotalRevenue` | index.js:284-286 | reference definition of the `$sum` of prices over the history; `TotalRevenueConcat` and `RevenueNonNegative` state its properties |
| `Payments.RevenueGroup` | index.js:280-289 | the `_id: null` group yields one document over a non-empty history and none over an empty one |
| `Payments.TotalRevenueConcat` | index.js:284-286 | the revenue sum adds up over a split of the history |
| `Payments.AdminRevenue` | index.js:284-291 | the revenue read from the group's document, or 0 without one, is the price sum of the whole history |
| `Payments.AdminRevenueIsTotal` | index.js:280-291 | the reported revenue is the sum of all payment prices, 0 with no payments, and one more payment raises it by that payment's price |
| `Payments.RevenueNonNegative` | index.js:284-286 | with no negative prices the revenue is not negative |
| `Payments.AdminStats` | index.js:270-298 | admins only (401 or 403 otherwise); the revenue sent is the exact price sum |
| `OrderStats.LookupItems` | index.js:316-323 | a payment's lookup yields at most one item per listed id; `LookupCount`, `LookupFromMenu`, `LookupComplete`, `LookupByCategory` and `LookupPrice` state what it yields |
| `OrderStats.LineItems` | index.js:316-326 | every unwound line item is a current menu item; `LineItemsCount`, `LineItemsByCategory` and `LineItemsPrice` tie it to the join pairs |
| `OrderStats.OrderStats` | index.js:302-344 | the report has no more rows than join pairs; `OrderStatsCorrect` states its contents |
| `OrderStats.LookupCount` | index.js:316-323 | a payment's lookup yields one item per distinct listed id that names an existing menu item |
| `OrderStats.MatchedSetStep` | index.js:316-323 | one more listed id adds itself to the matched ids exactly when it names a menu item and was not listed before |
| `OrderStats.LookupFromMenu` | index.js:316-323 | every looked-up item is the current menu entry of an id the payment lists |
| `OrderStats.RepeatedOrUnknownIdAddsNothing` | index.js:316-323 | an id listed a second time, or one with no menu item, adds nothing to the lookup |
| `OrderStats.LookupComplete` | index.js:316-323 | every listed id that names a menu item yields that item: the lookup misses no match |
| `OrderStats.ItemSumsConcat` | index.js:327-333 | per-category counts and sums, and the price total, add up over a split of the line items |
| `OrderStats.SetPriceRemove` | index.js:331 | a set of menu ids' price total is one member's current price plus the rest's, whichever member is taken |
| `OrderStats.SetPriceAdd` | index.js:331 | adding a new id to a set adds its current price to the set's total |
| `OrderStats.LookupStep` | index.js:316-323 | one more listed id adds 1 and its price to its category's count and sum, and its price to the total, exactly when it names a menu item and was not listed before |
| `OrderStats.CategoryIdsStep` | index.js:316-323 | one more listed id joins its category's matched ids exactly when it names a menu item of that category and was not listed before |
| `OrderStats.LookupByCategory` | index.js:316-333 | per payment, the lookup's items of category c number the distinct listed ids naming an item of c, and their prices sum to those items' current prices |
| `OrderStats.LookupPrice` | index.js:316-331 | per payment, the lookup's price total is the current prices of the distinct listed ids that name a menu item |
| `OrderStats.LineItemsCount` | index.js:316-326 | the unwound line items number exactly the (payment, existing menu item) pairs |
| `OrderStats.UnresolvablePaymentDropped` | index.js:324-326 | a payment none of whose ids names a menu item contributes no line item |
| `OrderStats.DeletedMenuItemLeavesJoin` | index.js:144-149 | deleting a menu item removes one join pair for every payment that lists it |
| `OrderStats.LineItemsByCategory` | index.js:316-333 | over the history, the line items of category c count that category's (payment, menu item) pairs and sum their current prices |
| `OrderStats.LineItemsPrice` | index.js:316-331 | over the history, the line items' price total is the current prices of all join pairs |
| `OrderStats.CategoryJoinCountPositive` | index.js:316-333 | a category has join pairs iff some payment lists an existing menu item of that category |
| `OrderStats.Tally` | index.js:327-333 | accumulating one item adds at most one row and never leaves the rows empty; `TallyLookup`, `TallyCategories` and `TallyShape` state the rest |
| `OrderStats.GroupByCategory` | index.js:327-333 | there are no more groups than line items, and at least one when there is an item; `GroupByCategoryCorrect` states the rest |
| `OrderStats.TallyLookup` | index.js:327-333 | grouping one more item adds 1 and its price to its category's row, creating the row if needed, and changes no other category |
| `OrderStats.TallyCategories` | index.js:327-333 | grouping one more item adds its category to the categories present, and no other |
| `OrderStats.TallyShape` | index.js:327-333 | grouping one more item keeps one row per category and no empty row |
| `OrderStats.CountInPositive` | index.js:327-333 | a category has a positive count iff some line item has it |
| `OrderStats.GroupByCategoryCorrect` | index.js:327-333 | there is one row per category present among the line items and none empty; quantity and revenue are that category's count and price sum; the totals are the number of items and their price sum |
| `OrderStats.RowIsItsCategory` | index.js:334-340 | in disjoint rows, each row is what a lookup by its category finds |
| `OrderStats.CategoryOfRow` | index.js:334-340 | every row's category is among the report's categories |
| `OrderStats.OrderStatsCorrect` | index.js:302-344 | the report has disjoint groups, one for each category of an existing menu item that some payment lists and no other; each row's quantity is its category's (payment, menu item) pairs, never 0, and its revenue their current prices; quantities add up to all join pairs and revenues to all their prices |
| `Bistro.Store.constructor` | index.js:39-43 | the store starts from the collections as found, with emails unique and the id generator above every key |
| `Bistro.Store.Register` | index.js:102-111 | with a taken email: no id and no change; otherwise one user added under a new id; other collections untouched and emails unique |
| `Bistro.Store.Promote` | index.js:113-123 | callers who are not admins are refused and nothing changes; otherwise the role is set, matchedCount is 1 iff the id exists and modifiedCount is 1 iff the role was not already admin |
| `Bistro.Store.DeleteUser` | index.js:126-131 | admins only; removes that user if present and reports 0 or 1 |
| `Bistro.Store.DeleteMenuItem` | index.js:144-149 | admins only; removes that menu item if present and reports 0 or 1 |
| `Bistro.Store.AddToCart` | index.js:189-193 | the entry is added unchecked under a new id, so the cart grows by one |
| `Bistro.Store.DeleteCartEntry` | index.js:204-209 | any caller removes the entry if present, with no ownership check; the count is 0 or 1 |
| `Bistro.Store.Settle` | index.js:254-266 | exactly one payment is appended, then exactly the listed entries leave the cart and the rest stay; the count is the number removed, at most the number of ids |
| `Bistro.DuplicateSettlement` | index.js:254-266 | submitting the same settlement twice records two payments; the first reports 1 deleted entry and the second 0 |

## Left out

- Express setup, CORS, `app.listen`, the root route and the MongoDB connection lifecycle (index.js:1-43, 346-368): I/O plumbing.
- JWT signing (`POST /jwt`) and verification: a signed-token library. The decoded claims are an input value (`Credential`), and a claims payload is assumed to carry an email.
- The Stripe payment-intent route (index.js:215-230): an external service. Its own error is caught and only logged (index.js:227-228).
- The user, menu-item and order counts of `admin-stats`: they come from `estimatedDocumentCount`, which the database engine estimates.
- ObjectId parse failures of `new ObjectId(id)` and `$toObjectId`: library errors. Ids are already natural numbers here.
- A payment body without a `cartIds` array: the handler would throw after the payment is inserted. The model's `Payment` always has the list.
- Menu listing, insert, read-by-id and update (index.js:139-142, 150-180), and review listing (index.js:183-186): pass-through queries with no logic. Note that the update route has no gate in the source. Only menu deletion is modelled, because it changes the order-statistics join.
- Concurrency: two racing settlements are modelled only one after the other (`DuplicateSettlement`).
- Document order: `$lookup` returns matched menu items in menu-collection order, while `LookupItems` uses first-mention order. `$group` output order is left undefined by the database, and `GroupByCategory` uses first-seen order. Counts and sums do not depend on either order.
- `find` on cart entries returns a list in storage order. `CartView` returns the matching entries as a map from id, so their order is not modelled.
- Decimal prices and `$round`: prices are integer cents.
- Payment `_id`s are not kept on the stored payments, because nothing reads them. `Settle` returns the id it handed out.
- The first-match semantics of `findOne` by email are modelled as "the user with that email". This is sound because `Valid()` keeps emails unique.
