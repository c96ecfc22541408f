# Café point-of-sale backend, modelled in Dafny

This project models the core of a café's point-of-sale HTTP backend. Staff
sign in and receive a bearer token whose role claim (`admin`, `cashier` or
`cook`) decides which handlers they may call. The backend then:

- keeps the product catalogue and the dining tables;
- takes orders at a free table, copying each product's current price onto
  the order's items, deducting the stock and occupying the table;
- gives the kitchen its working views: the pending and in-preparation queue
  sorted by creation time, the next pending order, the two guarded
  transitions (pending → in preparation → ready), and the daily counts.

The model is organised as follows:

- `wrappers.dfy`: `Option`, `Result` and the HTTP errors the handlers
  raise (400, 401, 403, 404, 422, 500).
- `domain.dfy`: the records and their enumerations, plus the string forms of
  the enumerations.
- `schemas.dfy`: the request bodies. Each validator turns a raw body into a
  typed one or a 422, and is proved to invert the typed-to-raw encoding.
- `query.dfy`: the query shapes the handlers build:
  - a table's rows in primary-key order;
  - filters and `offset(skip).limit(limit)`;
  - `.count()`;
  - a loop of attribute assignments.
- `auth.dfy`: the role gate, the claims signed at login, and the
  current-user lookup. Password hashing and token signing are opaque
  functions held in a `Credentials` value.
- `catalog.dfy`: the rows product and table creation insert, the partial
  update proved equal to a field-wise merge, and the product list filters.
- `orders.dfy`: everything order creation checks and writes, the status and
  notes patch, and the order listings. It holds both the line check as the
  handler writes it and the corrected check (see Findings).
- `kitchen.dfy`: the queue, the next order, the transitions and the daily
  statistics.
- `store.dfy`: the database as a `Store` class. It holds one map per table,
  keyed by autoincrement id, and one counter per table. Every handler is a
  method (when it writes) or a function (when it reads). Each handler runs
  its role gate first, except three: order creation looks up the current
  user instead, and registration and login have no gate. Each states its
  outcome and the whole new state. `Valid()` holds these invariants:
  - ids lie below their counters;
  - usernames are unique;
  - capacities and prices are positive;
  - the orders' foreign keys point at existing rows.

  Stock is not in the invariant: order creation as written can drive it
  below zero (see Findings).

Money is integer cents; timestamps are integer seconds supplied by the
caller (`now`).

## Model

| member | source | states |
|---|---|---|
| Domain.ParseTableStatus | app/models.py:7-10 | parsing accepts exactly the three status names and inverts `TableStatusName` |
| Domain.ParseOrderStatus | app/models.py:12-17 | parsing accepts exactly the five order status names and inverts `OrderStatusName` |
| Domain.ParseRole | app/models.py:30-33 | parsing accepts exactly `cashier`, `cook`, `admin` and inverts `RoleName` |
| OrderSchemas.ValidateOrderUpdate | app/orders/schemas.py:37-39 | accepted iff an absent status or a valid status name; otherwise 422; the accepted body encodes back to the raw one |
| OrderSchemas.OrderUpdateRoundTrip | app/orders/schemas.py:37-39 | every typed update survives encoding and validation unchanged |
| ProductSchemas.ValidateProductCreate | app/products/schemas.py:5-13 | accepted iff price > 0 and a present stock is ≥ 0; otherwise 422; an absent stock defaults to 0 |
| ProductSchemas.ProductCreateRoundTrip | app/products/schemas.py:5-13 | every typed create body survives encoding and validation unchanged |
| ProductSchemas.ValidateProductUpdate | app/products/schemas.py:15-21 | accepted iff a present price is > 0 and a present stock is ≥ 0; otherwise 422; encodes back to the raw body |
| ProductSchemas.ProductUpdateRoundTrip | app/products/schemas.py:15-21 | every typed update survives encoding and validation unchanged |
| ProductSchemas.ValidateStockUpdate | app/products/schemas.py:32-33 | accepted iff stock ≥ 0, keeping the value; otherwise 422 |
| TableSchemas.ValidateTableCreate | app/tables/schemas.py:11-15 | accepted iff capacity > 0, keeping the value; otherwise 422 |
| TableSchemas.ValidateTableUpdate | app/tables/schemas.py:17-20 | accepted iff a present capacity is > 0 and a present status is a valid name; encodes back to the raw body |
| TableSchemas.TableUpdateRoundTrip | app/tables/schemas.py:17-20 | every typed table update survives encoding and validation unchanged |
| TableSchemas.ValidateTableStatusUpdate | app/tables/schemas.py:31-32 | accepted iff the status is one of the three table status names, and the parsed status has that name |
| Query.Rows | app/tables/router.py:37 | the listed rows are exactly the table's rows, each with its stored value, in strictly increasing id order |
| Query.Filter | app/products/router.py:39-43 | the kept elements are elements of the input that satisfy the filter, and every input element that satisfies it is kept |
| Query.FilterKeepsIdOrder | app/products/router.py:39-43 | filtering rows in id order keeps them in id order |
| Query.Page | app/products/router.py:45 | `offset(skip).limit(limit)` returns min(limit, rows after skip) elements, the i-th being input element skip + i |
| Query.PageAll | app/tables/router.py:37 | with skip 0 and no more rows than the limit, the page is all rows |
| Query.Count | app/kitchen/router.py:105-107 | a count never exceeds the number of rows |
| Query.CountFilter | app/kitchen/router.py:105-107 | `.count()` equals the length of the filtered list |
| Query.CountPositive | app/kitchen/router.py:123-128 | the count is positive iff some row satisfies the filter |
| Query.CountMono | app/kitchen/router.py:105-128 | a stricter filter never counts more rows |
| Query.CountDisjoint | app/kitchen/router.py:109-121 | counts of two disjoint filters add up to the count of their union |
| Auth.Authorize | app/auth/middleware.py:16-25 | a token that does not decode gives 401; a decoded token passes iff its role claim is in the allowed list, else 403; on success the payload is returned |
| Auth.AuthorizeMonotone | app/auth/middleware.py:20 | a token accepted for a role list is accepted, with the same payload, for any larger list |
| Auth.LoginClaims | app/auth/router.py:64-68 | the signed claims carry the username as subject, the user's role name, and an expiry after now |
| Auth.LoginTokenGate | app/auth/router.py:64-68 | a login token passes a role gate iff the user's role is on the list, given that the token library round-trips |
| Auth.RegisterKeepsUnique | app/auth/router.py:80-97 | inserting a user whose name is not taken keeps usernames unique |
| Auth.FindUser | app/auth/router.py:40 | no result iff no row has the name; otherwise the id of a row with that name |
| Auth.CurrentUser | app/auth/router.py:24-44 | succeeds iff the token decodes, has a subject, and a user of that name exists; every failure is 401 |
| Auth.CheckLogin | app/auth/router.py:52-58 | over the users table with unique usernames: succeeds iff some user has that username and a hash that verifies the password, and then names that user; every failure is 401 |
| Catalog.NewProduct | app/products/router.py:21 | the inserted product has the body's fields and is active |
| Catalog.ProductFieldsMerge | app/products/router.py:81-83 | the setattr loop over the fields present in the body replaces exactly those fields and keeps the others |
| Catalog.MatchingIsFilter | app/products/router.py:37-43 | the active filter followed by the category filter keeps exactly the rows matching both, in order |
| Catalog.ListProducts | app/products/router.py:37-46 | exactly the `offset(skip).limit(limit)` slice of the rows matching the active and category filters |
| Catalog.ListProductsDefaults | app/products/router.py:29-32 | with skip 0, limit 100, no category and `active_only` true, the result is the first 100 active products |
| Catalog.ListProductsKeepsIdOrder | app/products/router.py:37-46 | the listed products stay in id order |
| Catalog.Categories | app/products/router.py:54-55 | each category appears once, and a string is listed iff some product (active or not) has it as category |
| Catalog.NewTable | app/tables/router.py:21-23 | the inserted table is free, active, and has the requested capacity |
| Catalog.TableFieldsMerge | app/tables/router.py:64-66 | the setattr loop over the fields present in the body replaces exactly those fields and keeps the others |
| Orders.CheckLines | app/orders/router.py:38-49 | as written: passes iff every line's product exists with stock ≥ its quantity; otherwise the first failing line gives 404 (missing) or 400 (short) |
| Orders.Deduct | app/orders/router.py:62-72 | deducting stock keeps the same products and changes nothing but their stock |
| Orders.DeductStock | app/orders/router.py:62-72 | each product's new stock is its old stock minus the total quantity the lines ask of it |
| Orders.NoOverdraftWhenDistinct | app/orders/router.py:38-72 | when no product is named twice, an order that passes the check leaves every stock ≥ 0 |
| Orders.DuplicateLinesOverdraw | app/orders/router.py:38-72 | two one-unit lines for a product with one unit in stock pass the check and leave stock −1 |
| Orders.NegativeQuantityRestocks | app/orders/schemas.py:19-22 | a line of quantity −5 passes the check and raises stock from 1 to 6 |
| Orders.CheckLinesCumulative | app/orders/router.py:38-49 | corrected check: passes iff each line's product exists, its quantity is positive, and the earlier lines plus this one do not exceed the stock; otherwise the first failing line gives 404 or 400 |
| Orders.CumulativeFailurePersists | app/orders/router.py:38-49 | once a prefix of the lines fails, the whole order fails with the same error |
| Orders.CumulativeDemand | app/orders/router.py:62-72 | after the corrected check, the demand for each product is ≥ 0, and any positive demand is for a product whose stock covers it |
| Orders.CorrectedCheckKeepsStock | app/orders/router.py:62-72 | after the corrected check, every product named exists and every stock ends between 0 and its old value |
| Orders.CorrectedCheckRejectsCounterexamples | app/orders/router.py:38-49 | the corrected check answers 400 to both counterexamples |
| Orders.FirstFailingLine | app/orders/router.py:38-49 | when every earlier line passes, the first failing line's 404 or 400 is the check's answer |
| Orders.CheckOrder | app/orders/router.py:25-49 | as written: a missing table gives 404, a non-free table 400; passes iff the table is free and every line's product exists with stock ≥ its quantity |
| Orders.CheckOrderCorrected | app/orders/router.py:25-49 | the same table checks followed by the corrected line check of the Findings |
| Orders.CheckLinesReadsOnlyStock | app/orders/router.py:38-49 | the line check as written depends on the products only through their stock |
| Orders.CumulativeReadsOnlyStock | app/orders/router.py:38-49 | the corrected line check, too, depends on the products only through their stock |
| Orders.CheckIgnoresActive | app/orders/router.py:25-49 | deactivating a table or a product changes neither the check as written nor the corrected one, so inactive rows can be ordered |
| Orders.ItemFor | app/orders/router.py:64-70 | an item copies the line's product, quantity and notes, and the product's current price |
| Orders.Items | app/orders/router.py:62-71 | one item per line, in request order |
| Orders.NewOrder | app/orders/router.py:52-57 | the new order is pending, unpaid, with total 0, for the requested table, the caller, and the given notes and items |
| Orders.Patch | app/orders/router.py:136-140 | a present status or note replaces the old one, an absent one keeps it; nothing else changes |
| Orders.PatchIdempotent | app/orders/router.py:136-140 | applying the same patch twice equals applying it once |
| Orders.PatchReachesAnyStatus | app/orders/router.py:136-137 | the patch sets any status from any status, with no transition guard, and keeps the items |
| Orders.ListOrders | app/orders/router.py:98-104 | exactly the `offset(skip).limit(limit)` slice of the orders with the requested status (all orders when none is given) |
| Orders.ListOrdersKeepsIdOrder | app/orders/router.py:98-104 | the listed orders stay in id order |
| Orders.KitchenOrders | app/orders/router.py:160-162 | lists only pending and in-preparation rows and all of them, one entry per such row (its length is their count), keeping increasing id order |
| Kitchen.SortByCreation | app/kitchen/router.py:25 | the result is sorted by creation time and is a permutation of the input |
| Kitchen.Queue | app/kitchen/router.py:23-25 | the queue is sorted by creation time and is a permutation of the kitchen's orders |
| Kitchen.QueueMembers | app/kitchen/router.py:23-25 | an order is in the queue iff it is pending or in preparation |
| Kitchen.NextOrder | app/kitchen/router.py:34-42 | 404 iff nothing is pending; otherwise a pending order created no later than any other pending order |
| Kitchen.FirstPendingIsNext | app/kitchen/router.py:34-36 | in any sorted queue of the kitchen's orders, the first pending entry is as old as the next order |
| Kitchen.NextIsHeadOfPendingQueue | app/kitchen/router.py:23-36 | the next order is as old as the first pending order of the queue |
| Kitchen.Start | app/kitchen/router.py:59-65 | succeeds iff the order is pending, setting it in preparation and changing nothing else; otherwise 400 |
| Kitchen.Complete | app/kitchen/router.py:84-90 | succeeds iff the order is in preparation, setting it ready and changing nothing else; otherwise 400 |
| Kitchen.TransitionsMoveForward | app/kitchen/router.py:59-90 | a successful start or complete moves the order exactly one stage forward |
| Kitchen.StartTwiceFails | app/kitchen/router.py:59-63 | starting an order a second time is refused with 400 |
| Kitchen.CompleteBeforeStartFails | app/kitchen/router.py:84-88 | a pending order cannot be completed |
| Kitchen.StartThenComplete | app/kitchen/router.py:59-90 | start then complete takes a pending order to ready and changes nothing else |
| Kitchen.TodayStart | app/kitchen/router.py:101-102 | midnight is a multiple of a day, not after now, and less than a day before it |
| Kitchen.Stats | app/kitchen/router.py:101-152 | fails with 500 iff an order created today is ready; otherwise the total, pending and in-preparation counts are the numbers of today's orders overall, pending and in preparation, and the completed count and average are 0 |
| Kitchen.StatsCountsBounded | app/kitchen/router.py:105-128 | pending + in preparation + completed never exceeds the day's total |
| Cafe.NextIdsFresh | app/models.py:45 | no autoincrement counter points at an existing row |
| Cafe.InsertUserKeepsConsistent | app/auth/router.py:88-97 | inserting a user with an untaken name keeps the invariants |
| Cafe.ReplaceUserKeepsConsistent | app/auth/router.py:61-62 | rewriting a user with the same name keeps the invariants |
| Cafe.InsertProductKeepsConsistent | app/products/router.py:21-24 | inserting a product with positive price and non-negative stock keeps the invariants |
| Cafe.ReplaceProductKeepsConsistent | app/products/router.py:81-86 | rewriting a product with positive price and non-negative stock keeps the invariants |
| Cafe.InsertTableKeepsConsistent | app/tables/router.py:21-26 | inserting a table with positive capacity keeps the invariants |
| Cafe.ReplaceTableKeepsConsistent | app/tables/router.py:64-69 | rewriting a table with positive capacity keeps the invariants |
| Cafe.ReplaceOrderKeepsConsistent | app/orders/router.py:136-144 | rewriting an order with the same table, user and items keeps the invariants |
| Cafe.PlacedKeepsConsistent | app/orders/router.py:52-75 | the writes of an order creation keep the invariants whatever the quantities |
| Cafe.PlacedDistinctKeepsStock | app/orders/router.py:38-72 | an order that passed the check as written and names no product twice leaves every stock ≥ 0 |
| Cafe.PlacedCorrectedKeepsStock | app/orders/router.py:38-72 | an order that passed the corrected check leaves every stock ≥ 0 |
| Cafe.CheckLineLoop | app/orders/router.py:38-49 | the line-by-line loop returns exactly the verdict of the check as written |
| Cafe.CheckLineLoopCorrected | app/orders/router.py:38-49 | the corrected loop, tracking the stock left by earlier lines, returns exactly the corrected check's verdict |
| Cafe.CheckOrderLoop | app/orders/router.py:25-49 | the table lookup plus the line loop returns exactly `CheckOrder`'s verdict |
| Cafe.CheckOrderLoopCorrected | app/orders/router.py:25-49 | the table lookup plus the corrected line loop returns exactly `CheckOrderCorrected`'s verdict |
| Cafe.SetProductAttrs | app/products/router.py:81-83 | the setattr loop yields the fold of the assignments, which is the field-wise merge |
| Cafe.SetTableAttrs | app/tables/router.py:64-66 | the setattr loop yields the fold of the assignments, which is the field-wise merge |
| Cafe.QueueOfOrders | app/kitchen/router.py:23-25 | over the stored orders, the queue is sorted by creation time, is a rearrangement (same multiset) of the kitchen rows in id order, and lists no order twice |
| Cafe.Store.constructor | app/models.py:42-110 | an empty database whose counters all start at 1 satisfies the invariants |
| Cafe.Store.CurrentUserId | app/auth/router.py:24-44 | succeeds iff the token decodes, has a subject, and names a stored user; returns that user's id; otherwise 401 |
| Cafe.Store.Register | app/auth/router.py:72-105 | succeeds iff the username is untaken, inserting an active user with the hashed password under the next id; a taken name gives 500 and changes nothing |
| Cafe.Store.LoginUser | app/auth/router.py:52-58 | succeeds exactly for a stored username whose hash verifies the password; otherwise 401 |
| Cafe.Store.Login | app/auth/router.py:46-70 | on success stamps last login, changes nothing else, and returns the token for the user's name and role; on failure 401 and no change |
| Cafe.Store.CreateProduct | app/products/router.py:14-25 | admin only; inserts the new product under the next id and changes nothing else; a refused token changes nothing |
| Cafe.Store.GetProducts | app/products/router.py:27-46 | staff only; exactly the `offset(skip).limit(limit)` slice of the stored products matching the active and category filters, in id order |
| Cafe.Store.GetCategories | app/products/router.py:48-55 | staff only; the distinct categories of all stored products |
| Cafe.Store.GetProduct | app/products/router.py:57-67 | staff only; the stored product, or 404 |
| Cafe.Store.UpdateProduct | app/products/router.py:69-87 | admin only; 404 for a missing id; otherwise the row becomes the field-wise merge and nothing else changes |
| Cafe.Store.UpdateProductStock | app/products/router.py:89-104 | admin or cook; 404 for a missing id; otherwise only that product's stock changes |
| Cafe.Store.DeleteProduct | app/products/router.py:106-119 | admin only; 404 for a missing id; otherwise only that product's active flag is cleared |
| Cafe.Store.CreateTable | app/tables/router.py:14-27 | admin or cashier; inserts a free, active table under the next id and changes nothing else |
| Cafe.Store.GetTables | app/tables/router.py:29-38 | staff only; exactly min(limit, tables after skip) tables, the i-th being stored table skip + i in id order, inactive ones included |
| Cafe.Store.GetTable | app/tables/router.py:40-50 | staff only; the stored table, or 404 |
| Cafe.Store.UpdateTable | app/tables/router.py:52-70 | admin or cashier; 404 for a missing id; otherwise the row becomes the field-wise merge and nothing else changes |
| Cafe.Store.UpdateTableStatus | app/tables/router.py:72-87 | admin or cashier; 404 for a missing id; otherwise only that table's status changes, to any status |
| Cafe.Store.DeleteTable | app/tables/router.py:89-102 | admin only; 404 for a missing id; otherwise only that table's active flag is cleared |
| Cafe.Store.TakeStock | app/orders/router.py:61-72 | the item loop returns one priced item per line and deducts each line's quantity from its product; nothing else changes |
| Cafe.Store.Commit | app/orders/router.py:52-75 | inserts the order under the next id with one item per line, deducts each line's quantity from its product, occupies the table, and changes nothing else |
| Cafe.Store.PlaceOrder | app/orders/router.py:24-87 | fails, changing nothing, iff the check as written fails, with its error; otherwise the writes of `Commit`; with no product named twice, no stock drops below 0 |
| Cafe.Store.PlaceOrderCorrected | app/orders/router.py:24-87 | the same handler with the corrected check: the same writes when it passes, and stock ≥ 0 is preserved |
| Cafe.Store.CreateOrder | app/orders/router.py:17-87 | an unknown caller gives 401; otherwise the outcome of placing the order, as written, for the caller's id |
| Cafe.Store.GetOrders | app/orders/router.py:89-104 | staff only; exactly the `offset(skip).limit(limit)` slice of the stored orders with the requested status, in id order |
| Cafe.Store.GetOrder | app/orders/router.py:106-119 | staff only; the stored order, or 404 |
| Cafe.Store.UpdateOrderStatus | app/orders/router.py:121-152 | staff only; 404 for a missing id; otherwise the order becomes the patch of itself and nothing else changes |
| Cafe.Store.GetKitchenOrders | app/orders/router.py:154-163 | cook only; the stored pending and in-preparation orders and no others, in strictly increasing id order (so none twice) |
| Cafe.Store.GetKitchenQueue | app/kitchen/router.py:17-26 | cook only; the stored pending and in-preparation orders and no others, each once (a rearrangement of the id-ordered kitchen list), sorted by creation time |
| Cafe.Store.GetNextOrder | app/kitchen/router.py:28-43 | cook only; 404 iff nothing is pending; otherwise a stored pending order created no later than any other |
| Cafe.Store.StartOrder | app/kitchen/router.py:45-68 | cook only; 404 for a missing id, 400 unless pending; otherwise only that order's status becomes in preparation |
| Cafe.Store.CompleteOrder | app/kitchen/router.py:70-93 | cook only; 404 for a missing id, 400 unless in preparation; otherwise only that order's status becomes ready |
| Cafe.Store.GetKitchenStats | app/kitchen/router.py:95-152 | cook or admin; 500 iff a stored order created today is ready; otherwise the total, pending and in-preparation counts are the numbers of stored rows created today overall, pending and in preparation, and completed and average are 0 |

## Left out

- Timestamps the database fills in are not modelled: `created_at` of users, tables, products and items, and `updated_at` of products. Order creation time is the `now` parameter.
- An explicit JSON `null` for any update field other than `description` is not modelled; `description` is modelled as `Option<Option<string>>`. Every `ProductUpdate` and `TableUpdate` field is optional (app/products/schemas.py:15-21, app/tables/schemas.py:17-20), and the update loops copy a `null` onto the row (app/products/router.py:81-83, app/tables/router.py:64-66). A `null` name, price, category or capacity then fails at commit on a NOT NULL column (app/models.py:60, 70-72) and the server answers 500. A `null` stock, product `is_active` or table `status` is stored as NULL (app/models.py:59, 61, 73-74). Afterwards an order for that product raises on `None < quantity` (500), a product with NULL `is_active` drops out of the active-only list, and a table with NULL status is no longer free. The model's `Product.stock` is an `int`, `isActive` a `bool` and the table status an enumeration, so none of these states exists in it.
- Prices are integer cents. `condecimal(gt=0, decimal_places=2)` (app/products/schemas.py:7, 17) answers 422 to a price with three or more decimal places; integer cents cannot express such a price, so that rejection is not modelled.
- `skip` and `limit` are natural numbers. The list handlers accept any integer (app/products/router.py:29-30, app/tables/router.py:31-32, app/orders/router.py:92-93) and pass it to `.offset(skip).limit(limit)` unchanged (app/products/router.py:45, app/tables/router.py:37, app/orders/router.py:103). What a negative value does depends on the database engine: SQLite, the engine the test suite configures (tests/conftest.py:17), reads a negative limit as no limit and a negative offset as 0, while PostgreSQL rejects both. Neither behaviour is modelled.
- Column widths (`String(50)` and others), `DECIMAL(10, 2)` ranges and 32-bit ids are not modelled. Integers are unbounded.
- Database sessions, `commit`, `flush`, `refresh` and `rollback` are not modelled. Each handler is one atomic step. The `except` around the commit in order creation and in `update_order_status` has no failure to catch in the model.
- Concurrent requests are not modelled.
- Password hashing (bcrypt) and JWT signing are opaque functions. Token expiry is whatever `decode` decides.
- `app/main.py` mounts only the authentication router. The model treats every handler as reachable.
- The order-to-items cascade needs no proof: items are stored inside their order.
- Payments have a record shape only. No handler creates or changes a payment.
- An unordered `SELECT` is taken to return rows in primary-key order.
- Creation handlers return the new row's id. The row itself can be read from the state the contract gives.
- Kitchen.Stats: the average preparation time is always 0 on success. At app/kitchen/router.py:140 the handler reads `updated_at`, which the order record of app/models.py:81-96 does not have, so any ready order created today makes it fail with a 500. A mean in minutes, which the handler evidently aims at, is not modelled because the code never computes one.
- The query-parameter defaults (skip 0, limit 100, `active_only` true) are the constants `DefaultSkip`, `DefaultLimit` and `DefaultActiveOnly`. The handlers take every parameter explicitly; the framework step that fills in a missing parameter is not modelled.

## Findings

| source | as written | input that shows it | evidently intended | confidence | as-written member | corrected member |
|---|---|---|---|---|---|---|
| app/orders/router.py:38-72 | every line is compared with the stock as it was before the order, then all lines are deducted | product 1 with stock 1; lines (1, qty 1) and (1, qty 1): both pass, final stock −1 | each line must fit in what the earlier lines leave, so stock never goes below 0 | not executed | Orders.DuplicateLinesOverdraw | Orders.CorrectedCheckKeepsStock |
| app/orders/schemas.py:19-22 | a line's quantity is unconstrained, and `stock < quantity` lets a negative quantity through | product 1 with stock 1; line (1, qty −5): passes, final stock 6 | a quantity must be positive | not executed | Orders.NegativeQuantityRestocks | Orders.CorrectedCheckRejectsCounterexamples |

`Orders.CheckLinesCumulative` is the corrected check.
`Cafe.CheckLineLoopCorrected`, `Cafe.CheckOrderLoopCorrected` and
`Cafe.Store.PlaceOrderCorrected` use it, and `Cafe.PlacedCorrectedKeepsStock`
proves that no stock then goes below zero. The store's own order creation,
`Cafe.Store.CreateOrder`, keeps the check as written, so that the model
answers every request as the handler does.
