# Shop order orchestration, modelled in Dafny

This project models the core of the ReStore "shop" service: the orchestrator
(`controller.Shop`) that places orders and gates the privileged operations, and
the store (`repository.Shop`) whose operations it calls, here over in-memory
tables instead of GORM.

- `wrappers.dfy` — `Option`, `Result` and the `Error` kinds (unauthorized,
  store failure, not found, invalid number, invalid time); the identity and
  payment services answer with an `Error` of their own choosing, which is
  passed on unchanged.
- `entity.dfy` — the `Request` and `Payment` records (amounts and instants are
  integers; instant 0 is Go's zero `time.Time`, i.e. "unset").
- `strconv.dfy` — `Atoi`, Go's `strconv.Atoi` for a 64-bit `int`, with `Itoa`
  as its reference partner and the round trip between them.
- `repository.dfy` — the store as a class `Shop` holding one sequence of rows
  per entity and an auto-increment counter per entity. Lookup by primary key
  (`Find`) and the conjunctive search filters (`Filter`, `SelectRequests`,
  `SelectStorePayments`, `SelectPayments`) are pure functions; creates and
  updates are methods whose contracts give the new table in terms of the old.
  Updates are specified by `UpdateRequestRows`/`UpdatePaymentRows`, whose
  contracts say that exactly the named fields of exactly one row change.
- `controller.dfy` — the orchestrator as a class `Shop` over a store object,
  with a ghost `trace` of every collaborator call in the order it is made.
  The collaborators are parameters: the identity service as
  `oracle: string -> Result<bool>` (is this identity an administrator?), the
  payment service as `paymentService: seq<LineItem> -> Result<string>`, RFC 3339
  parsing as `parseTime: string -> Option<int>`, the store's clock as `now`, and
  the storage engine's errors as `fault` (one call) or `faults` (the k-th
  insertion of an order). The caller identity, which the Go code reads from a
  trusted header in the context, is the explicit parameter `caller`.

What is proved, in the system's terms:

- Placing an order sends exactly one payment request with one line per item,
  in order, each of quantity 1 and unit price price + tax. If the payment
  service fails, nothing is stored and its error is returned. Otherwise the
  items are stored one by one, stamped with the returned payment id and status
  `"preparing"`. The first failed insertion stops the loop: the earlier rows stay,
  later items are never attempted, and the storage error is returned. When all
  insertions succeed, the payment id is returned.
- Every privileged operation first asks the identity service about the caller.
  An error or a non-admin answer ends the call with that error, and the store
  is neither called nor changed. A malformed numeric id, then a malformed
  initial date, then a malformed end date end the call in that order, still
  before the store is called. Otherwise the store's answer is returned unchanged.
- Store updates overwrite only `Status` and `Track` (requests) or only `Status`
  (payments) of the one row with the given key. An unknown key yields
  `NotFound` and no change. Creates append one row under a key no earlier row has,
  and return that key. Searches return exactly the rows that pass every filter
  given (store, status when non-empty, strictly after `init` when set, strictly
  before `end` when set), in table order, and change nothing.

The code stores order items with status `"preparing"`, has no confirmation step,
and its store-scoped search does not hide `"created"` items; the model does the same.
The orchestrator reads an item title (`item.ItemName`, controller/shop.go:46) that
entity/request.go does not declare; the model's `Request` has a `title` field for
it. The store's `CreateRequest` returns the new key, as repository/shop.go:20 does;
the orchestrator only looks at whether it failed, as its interface at
controller/shop.go:16 expects.

## Model

| member | source | states |
|---|---|---|
| `Strconv.Atoi` | controller/shop.go:100-107 | the empty text is rejected; an accepted text is an optional leading sign followed by digits, with at least one digit, and its value lies in the 64-bit int range |
| `Strconv.AtoiItoa` | controller/shop.go:142-149 | every 64-bit int printed in decimal parses back to itself |
| `Strconv.AtoiAcceptsUnsigned` | controller/shop.go:142-149 | a digit string, bare or after '+', is accepted exactly when its value fits in an int, and then with that value |
| `Strconv.AtoiAcceptsNegative` | controller/shop.go:283-290 | a digit string after '-' is accepted exactly when its negation fits in an int, and then with that negation |
| `Strconv.AtoiLeadingZero` | controller/shop.go:241-248 | a leading zero does not change which id a digit string names |
| `Repository.Find` | repository/shop.go:29-33 | lookup by primary key finds the first row with that key, and finds nothing exactly when no row has it |
| `Repository.Filter` | repository/shop.go:47-61 | a conjunctive query returns exactly the rows that pass it, never more rows than the table holds |
| `Repository.FilterAppend` | repository/shop.go:61 | querying a table made of two parts returns the first part's matches followed by the second part's, so table order is kept |
| `Repository.SelectRequests` | repository/shop.go:45-66 | a request is returned iff it is in the table, belongs to the store, and has the given status when one is given, was created strictly after `init` when set and strictly before `end` when set |
| `Repository.SelectStorePayments` | repository/shop.go:92-101 | a payment is returned iff it is in the table and belongs to the store |
| `Repository.SelectPayments` | repository/shop.go:103-124 | a payment is returned iff it is in the table and passes the same status and strict date filters, with no store restriction |
| `Repository.SelectPaymentsUnfiltered` | repository/shop.go:105-118 | with an empty status and both dates unset, every payment is returned, in table order |
| `Repository.SelectRequestsAfterInsert` | repository/shop.go:20-26 | after one more row is inserted, the same search returns the old answer followed by the new row exactly when that row matches |
| `Repository.UpdateRequestRows` | repository/shop.go:28-43 | the lookup by key that the update intends: an unknown key (0 included, since keys start at 1) gives no table; otherwise the row with that key takes Status and Track from the input, keeps every other field, and every other row is unchanged |
| `Repository.UpdatePaymentRows` | repository/shop.go:76-90 | the lookup by key that the update intends: an unknown key (0 included) gives no table; otherwise the row with that key takes Status from the input, keeps every other field, and every other row is unchanged |
| `Repository.NewRequestRow` | repository/shop.go:20-21 | the row `Create` stores carries the assigned key, carries the current time as its creation instant when the record had none and keeps a set one, and equals the record in every other field |
| `Repository.NewPaymentRow` | repository/shop.go:68-69 | the payment row `Create` stores carries the assigned key, the current time when no creation instant was set and the set one otherwise, and equals the payment in every other field |
| `Repository.FirstAsWritten` | repository/shop.go:29-30 | `First` on a record with a non-zero key is the lookup by key; with key 0 it loads a lowest-keyed row whenever the table is non-empty |
| `Repository.UpdateRequestRowsAsWritten` | repository/shop.go:28-43 | UpdateRequest as written finds nothing exactly when the key is not 0 and no request has it, or the key is 0 and the table is empty; otherwise it overwrites Status and Track of one row and leaves the rest |
| `Repository.UpdatePaymentRowsAsWritten` | repository/shop.go:76-90 | UpdatePayment as written finds nothing exactly when the key is not 0 and no payment has it, or the key is 0 and the table is empty; otherwise it overwrites the Status of one row and leaves the rest |
| `Repository.UpdateRequestAsWrittenNonZero` | repository/shop.go:28-43 | for every non-zero key, UpdateRequest as written and the lookup by key give the same table, or both report no row |
| `Repository.UpdatePaymentAsWrittenNonZero` | repository/shop.go:76-90 | for every non-zero key, UpdatePayment as written and the lookup by key give the same table, or both report no row |
| `Repository.UpdateRequestZeroKey` | repository/shop.go:29-38 | on a non-empty table, UpdateRequest as written with id 0 overwrites Status and Track of the first request, whose key is not 0, while the lookup by key finds no such request |
| `Repository.UpdatePaymentZeroKey` | repository/shop.go:77-85 | on a non-empty table, UpdatePayment as written with id 0 overwrites the Status of the first payment, whose key is not 0, while the lookup by key finds no such payment |
| `Repository.UpdateAfterCreate` | repository/shop.go:28-43 | a request created and then updated by its new key has the new Status and Track and its created Price, Tax and other fields |
| `Repository.Shop.constructor` | repository/shop.go:14-18 | a new store has empty tables and both key counters at 1 |
| `Repository.Shop.CreateRequest` | repository/shop.go:20-26 | on a storage error nothing changes; otherwise exactly one row is appended under a key no existing row has, that key is returned, and the payments table is untouched |
| `Repository.Shop.UpdateRequest` | repository/shop.go:28-43 | on a storage error or an unknown key the table is unchanged and an error is returned; otherwise the table is the one `UpdateRequestRows` gives; payments are untouched |
| `Repository.Shop.SearchRequest` | repository/shop.go:45-66 | returns the storage error, or the `SelectRequests` rows of the current table, and changes nothing |
| `Repository.Shop.CreatePayment` | repository/shop.go:68-74 | on a storage error nothing changes; otherwise exactly one payment is appended under a fresh key that is returned, and requests are untouched |
| `Repository.Shop.UpdatePayment` | repository/shop.go:76-90 | on a storage error or an unknown key nothing changes; otherwise the payments table is the one `UpdatePaymentRows` gives; requests are untouched |
| `Repository.Shop.GetPayments` | repository/shop.go:92-101 | returns the storage error, or the payments of the store, and changes nothing |
| `Repository.Shop.SearchPayment` | repository/shop.go:103-124 | returns the storage error, or the `SelectPayments` rows, and changes nothing |
| `Controller.LineItems` | controller/shop.go:43-54 | the payment request holds one line per order item, in order, with the item's title, quantity 1 and unit price = price + tax |
| `Controller.BuildLineItems` | controller/shop.go:43-50 | the loop builds exactly the `LineItems` of the order |
| `Controller.PersistedCount` | controller/shop.go:63-74 | the number of insertions that succeed before the first failure: all earlier ones succeed, and the next one, if any, fails |
| `Controller.PersistedRowsStamped` | controller/shop.go:63-66 | the k-th stored row equals the k-th item except for its new key, the returned payment id, status `"preparing"` and, when the item had none, the creation time |
| `Controller.Gate` | controller/shop.go:82-98 | the operation may proceed iff the identity service answered "admin"; its error is passed on, and a non-admin answer gives `Unauthorized` |
| `Controller.ParseBound` | controller/shop.go:151-173 | an empty date is the zero time (no bound); a non-empty one succeeds iff it parses, with the parsed instant, and otherwise fails naming the text |
| `Controller.Shop.constructor` | controller/shop.go:32-38 | the orchestrator wraps the given store and has made no calls yet |
| `Controller.Shop.CreateRequest` | controller/shop.go:40-77 | exactly one payment request carrying the priced lines; on its failure its error and no store change; otherwise the first `PersistedCount` items stored as `PersistedRows`, exactly those insertions plus the failing one attempted, no rollback, and the payment id returned iff all were stored |
| `Controller.Shop.PersistItems` | controller/shop.go:63-74 | stores the stamped items in order and stops at the first storage error; the completed count is `PersistedCount`, those rows are appended and nothing is undone; attempts stop right after the failing item; success iff every item was stored |
| `Controller.Shop.CheckAdmin` | controller/shop.go:82-98 | makes exactly one identity call, for the caller, and returns the `Gate` verdict on its answer |
| `Controller.Shop.UpdateRequest` | controller/shop.go:79-119 | gate, then id parsing, each failing with no store call and no change; otherwise one store call with the parsed id, and the store's answer and effect |
| `Controller.Shop.SearchRequest` | controller/shop.go:121-185 | gate, store id, initial date, end date checked in that order, each failure before any store call; otherwise one store call with the parsed bounds and its rows returned unchanged |
| `Controller.Shop.CreatePayment` | controller/shop.go:187-218 | gate failure leaves the store untouched; otherwise one store call, and the new payment's key returned |
| `Controller.Shop.UpdatePayment` | controller/shop.go:220-260 | gate, then id parsing, each failing with no store call and no change; otherwise one store call that changes only the payment's Status |
| `Controller.Shop.GetPayments` | controller/shop.go:262-302 | gate, then store id parsing, each failing before any store call; otherwise the store's payments of that store, unchanged |
| `Controller.Shop.SearchPayment` | controller/shop.go:304-359 | gate, initial date, end date checked in that order, each failure before any store call; otherwise the store's filtered payments, unchanged |

## Left out

- The HTTP layer (handler/shop.go), router and gRPC wiring (cmd/main.go) and configuration loading (config/config.go): transport and plumbing with no logic of the core. handler/shop.go's 400 answer on an empty path parameter is also left out; the model's `Atoi` rejects an empty id anyway.
- The `Product` snapshot inside `Request` and the `Product`/`Image` shapes: the shown core never reads or writes them.
- Floating point: prices, taxes and totals are integers, so the `float32` rounding of the unit price (controller/shop.go:48) is not modelled.
- RFC 3339 parsing is the parameter `parseTime`, so its grammar is not modelled. Instants are integers with 0 for the zero time. Go compares `time.Time` values with `!=`, which also looks at the location; the model compares instants only.
- The remote identity and payment services are modelled only by their answers, as function parameters. The context, its cancellation and zap logging are left out.
- Storage-engine errors are injected per call (`fault`, `faults`). When none is injected, the call succeeds. SQL result order is taken to be insertion order.
- Repository.SelectRequests: the status filter is exact string equality. MySQL compares `status = ?` under the column's collation, which ignores case by default (for example `utf8mb4_0900_ai_ci`), so a search for `Preparing` would also return rows with status `preparing` unless the schema declares a binary collation.
- Repository.SelectPayments: the status filter is exact string equality, while MySQL compares under the column's collation, which ignores case by default; the same difference as for requests.
- Repository.Shop.CreateRequest: always assigns the next auto-increment key and ignores a non-zero `ID` already in the record, which MySQL would store as given or reject as a duplicate key.
- Repository.Shop.UpdateRequest: looks the request up by key, so id 0 gives `NotFound`. GORM's `First` adds no key condition for a zero `ID` and would load and overwrite the lowest-keyed request (see "## Findings").
- Repository.Shop.UpdatePayment: looks the payment up by key, so id 0 gives `NotFound`. GORM's `First` would load and overwrite the lowest-keyed payment (see "## Findings").
- Repository.Shop.CreatePayment: always assigns the next auto-increment key and ignores a non-zero `ID` in the bound payment, which MySQL would store as given (and return) or reject as a duplicate key. Controller.Shop.CreatePayment inherits this.
- Every operation runs alone. The Go service serves requests concurrently over one database with no lock or transaction, so another request's insert may land between two insertions of one order, or between the `First` and the `Save` of an update. The consecutive keys `firstId + j` of an order's rows are the model's choice; MySQL promises neither contiguity nor the absence of gaps.
- Controller.Shop.CreateRequest: one clock value `now` serves all insertions of an order.
- The order confirmation workflow, catalog enrichment of search results and the hiding of `"created"` items from searches: the shown code has none of them.

## Findings

| source | as written | input that shows it | evidently intended | confidence | as-written member | corrected member |
|---|---|---|---|---|---|---|
| repository/shop.go:29-38 | `First(&Request{ID: id})` then `Save`: a zero key adds no condition to the lookup | an admin updates request `"0"` while the table holds requests keyed 1, 2, …: the request with key 1 gets the new Status and Track | the update applies to the request with key 0, and there is none, so `NotFound` | not executed; rests on GORM building no key condition for a zero primary key | `Repository.UpdateRequestRowsAsWritten`, `Repository.UpdateRequestZeroKey` | `Repository.UpdateRequestRows` |
| repository/shop.go:77-85 | `First(&Payment{ID: id})` then `Save`: a zero key adds no condition to the lookup | an admin updates payment `"0"` while payments exist: the payment with key 1 gets the new Status | the update applies to the payment with key 0, and there is none, so `NotFound` | not executed; rests on GORM building no key condition for a zero primary key | `Repository.UpdatePaymentRowsAsWritten`, `Repository.UpdatePaymentZeroKey` | `Repository.UpdatePaymentRows` |
