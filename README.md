# Order-management demo: stores, order aggregation, gateway guard and form helpers

This Dafny project models the logic of a small e-commerce system. The system is
built from two NestJS microservices behind an API gateway, plus a Next.js signup
form. The model covers:

- **Product store** (`ProductService.AppService`). An in-memory table of
  products kept in insertion order. A counter supplies the ids, which are
  decimal strings. There are create, read, update (field merge), delete and
  `findByIds` operations.
- **Order store** (`OrderService.AppService`). The same kind of table for
  orders, plus order creation.
  - Creation asks the product lookup for the items' products and refuses the
    order when the answer does not hold one product per item.
  - It prices the order as the sum of price × quantity, using the first
    matching product, and stores it as `pending`.
  - The read model joins every item with its product.
  - The lookup is the product store's `findByIds` reached over HTTP. It is a
    function parameter here, and the lemmas `CreateAgainstStore`,
    `ListAgainstStore` and `FindOneAgainstStore` instantiate it with the
    product store's `FilterByIds`.
- **Gateway** (`Gateway.CreateOrder`). The `POST /orders` endpoint:
  - it validates the body;
  - it dispatches the body to the order service;
  - it turns the reply, an error marker, a thrown HTTP exception, any other
    error or the timeout into an HTTP response.
- **Entities** (`ProductEntity`, `OrderEntity`). The records, the five order
  statuses, and the class-validator constraints of the request objects, given
  as violation lists whose emptiness is characterised.
- **Order flow** (`OrderFlow`). The order service's error-marker reply, put
  together with the gateway and the product store.
- **Form helpers** (`DynamicFormField`, `SignupForm`):
  - the key a field registers under: lower-cased, each whitespace run replaced
    by `_`;
  - the validation rules derived from a field's configuration;
  - the e-mail pattern, both as a language and as a matcher proved equivalent
    to it;
  - the fold that builds the form's default values.

The stores are classes whose methods update their fields in place. Each store
keeps an invariant (`Valid`): stored ids are distinct, and every id ever issued
is the decimal numeral of a value below the counter, so ids are never reused
after a removal (within the limits named under "Left out": payloads that carry
their own `id`, and counters past 2^53). The default-values fold is a loop proved against a fold
function. Everything else is functions and lemmas.

Prices, stock, quantities and totals are integers (cents). Timestamps are an
opaque `now` value passed in by the caller. Text is ASCII: `toLowerCase` maps
`A`–`Z` only, and `\s` is space, tab, line feed, vertical tab, form feed and
carriage return.

Order creation compares the number of returned products with `items.length`,
which counts repeated product ids. The product lookup answers each stored
product at most once. So an order that names the same product twice is always
refused with "One or more products not found", although the product exists
(`RepeatedProductRejected`, `RepeatedProductIsBadRequest`). Counting distinct
ids instead would accept such an order. The model follows the code.

## Model

| member | source | states |
|---|---|---|
| Common.Decimal | backend/service-a/src/app.service.ts:11 | an id is a non-empty string of decimal digits, without a leading zero unless it is `0` |
| Common.ParseDecimalOfDecimal | backend/service-a/src/app.service.ts:11 | reading a rendered counter back gives the counter |
| Common.DecimalInjective | backend/service-a/src/app.service.ts:11 | distinct counter values render as distinct ids |
| Common.FreshId | backend/service-a/src/app.service.ts:11 | the id rendered from the current counter was never issued before, and all issued ids stay below the incremented counter |
| Common.IntToString | frontend/components/DynamicFormField.tsx:48 | a number in a message renders as a digit string that reads back as the number, preceded by `-` when it is negative |
| Common.IndexWhere | backend/service-a/src/app.service.ts:29 | `findIndex` (both stores): -1 iff no record holds the id, else the first position that does |
| Common.Dedup | backend/service-b/src/app.service.ts:49 | `[...new Set(ids)]` holds the same ids, none twice, and is no longer than the input |
| ProductEntity.CreateViolations | backend/service-a/src/product.entity.ts:14-35 | each message is reported iff its bound is broken (name 3–100, description ≥ 10, price ≥ 0, stock ≥ 0, category ≥ 2); no message iff all bounds hold |
| ProductEntity.UpdateViolations | backend/service-a/src/product.entity.ts:37-63 | an update is valid iff every field it supplies meets the create bound; the empty update is valid |
| ProductEntity.UpdateBoundsMatchCreate | backend/service-a/src/product.entity.ts:37-63 | an update that supplies every field reports exactly the create messages |
| ProductEntity.Merge | backend/service-a/src/app.service.ts:33-37 | supplied fields overwrite and absent ones stay; id and createdAt are kept; updatedAt is the new time; a valid update keeps a product within bounds (for updates without a `null` field, see "Left out") |
| ProductEntity.MergeIdempotent | backend/service-a/src/app.service.ts:33-37 | merging the same update twice equals merging it once |
| ProductService.FirstWithId | backend/service-a/src/app.service.ts:25 | `find`: none iff no product holds the id, else the product at the first matching position |
| ProductService.FilterByIds | backend/service-a/src/app.service.ts:51 | a product is in the result iff it is stored and its id is requested; the result is a sub-multiset of the table |
| ProductService.FilterAppend | backend/service-a/src/app.service.ts:51 | filtering distributes over concatenation, so store order is kept |
| ProductService.FilterDistinct | backend/service-a/src/app.service.ts:51 | a table with distinct ids filters to one with distinct ids, so a repeated request id never repeats a product |
| ProductService.FirstWithIdInFilter | backend/service-a/src/app.service.ts:51 | finding a requested id in the filtered table gives what the whole table gives |
| ProductService.FilterCount | backend/service-a/src/app.service.ts:51 | with distinct stored ids the answer has at most as many products as distinct requested ids |
| ProductService.FilterCountExact | backend/service-a/src/app.service.ts:51 | with distinct stored ids the answer has one product per requested id iff no id is requested twice and every requested id is stored |
| ProductService.ExactCountIsDistinctAndStored | backend/service-a/src/app.service.ts:51 | one product per requested id implies distinct requested ids, all stored |
| ProductService.DistinctAndStoredIsExactCount | backend/service-a/src/app.service.ts:51 | distinct requested ids, all stored, give one product per requested id |
| ProductService.FoundIds | backend/service-a/src/app.service.ts:51 | the ids of an answer are among the requested ids and occur once each |
| ProductService.AppService.constructor | backend/service-a/src/app.service.ts:6-7 | the store starts empty with counter 1 and keeps its invariant |
| ProductService.AppService.Create | backend/service-a/src/app.service.ts:9-18 | the new product carries the DTO's fields, the decimal of the old counter as a never-issued id and `now` for both times; it is appended; the counter grows by 1; a valid DTO gives an in-bounds product; the invariant holds |
| ProductService.AppService.FindAll | backend/service-a/src/app.service.ts:20-22 | the stored products, position by position |
| ProductService.AppService.FindOne | backend/service-a/src/app.service.ts:24-26 | none iff no product holds the id, else the first that does, which is the only one under the invariant |
| ProductService.AppService.Update | backend/service-a/src/app.service.ts:28-39 | an unknown id gives none and changes nothing; a known id replaces only its slot with the merge and returns it; counter and invariant kept |
| ProductService.AppService.Remove | backend/service-a/src/app.service.ts:41-48 | returns whether the id was stored; only that slot is spliced out, the rest keep their order; the id is then absent; the counter is kept so the id is not reused |
| ProductService.AppService.FindByIds | backend/service-a/src/app.service.ts:50-52 | exactly the stored products whose id is requested, in store order; under the invariant no product twice and no more than the distinct requested ids |
| OrderEntity.ParseStatus | backend/service-b/src/order.entity.ts:51-57 | a string names a status iff it is one of the five wire names, and then names exactly that status |
| OrderEntity.WithProduct | backend/service-b/src/order.entity.ts:26-28 | an enriched item keeps the item's fields and carries the given product |
| OrderEntity.ItemViolations | backend/service-b/src/order.entity.ts:4-15 | each message is reported iff quantity < 1 or price < 0; no message iff quantity ≥ 1 and price ≥ 0 |
| OrderEntity.NestedViolations | backend/service-b/src/order.entity.ts:46-48 | no nested message iff every item is valid |
| OrderEntity.CreateOrderViolations | backend/service-b/src/order.entity.ts:43-49 | "at least one item" is reported iff there are no items; valid iff there is an item and every item is valid |
| OrderEntity.UpdateOrderViolations | backend/service-b/src/order.entity.ts:59-63 | valid iff the status is absent or names one of the five statuses |
| OrderService.ProductIdsOf | backend/service-b/src/app.service.ts:15 | one product id per item, position by position, repeats kept |
| OrderService.ReduceIsSum | backend/service-b/src/app.service.ts:26-29 | the left fold from any start equals the start plus the sum of the line totals |
| OrderService.TotalPrice | backend/service-b/src/app.service.ts:26-29 | the total is the sum over items of first-matching price × quantity, 0 for an unmatched item |
| OrderService.SumOfLinesAppend | backend/service-b/src/app.service.ts:26-29 | the total of two item lists together is the sum of their totals |
| OrderService.SumOfLinesNonNegative | backend/service-b/src/app.service.ts:26-29 | non-negative prices and quantities give a non-negative total |
| OrderService.PlanOrder | backend/service-b/src/app.service.ts:15-29 | a failed lookup propagates its message; an answer whose length differs from the item count is refused with "One or more products not found"; otherwise the total is the sum of the line totals |
| OrderService.CreateAgainstStore | backend/service-b/src/app.service.ts:15-29 | against the product store, creation succeeds iff the item ids are distinct and all stored, and the total then uses the stored prices |
| OrderService.SumOfLinesInFilter | backend/service-b/src/app.service.ts:26-29 | pricing against the lookup's answer equals pricing against the whole product table |
| OrderService.RepeatedProductRejected | backend/service-b/src/app.service.ts:15-23 | against the product store, an order naming one product twice is always refused |
| OrderService.EnrichOrder | backend/service-b/src/app.service.ts:59-65 | all order fields are kept, and each item gets the first product with its id, or none |
| OrderService.EnrichAgainstStore | backend/service-b/src/app.service.ts:84-90 | enriching with the lookup's answer equals enriching with the whole product table |
| OrderService.AllProductIds | backend/service-b/src/app.service.ts:49 | an id is in the flat list iff some item of some order carries it |
| OrderService.ApplyStatus | backend/service-b/src/app.service.ts:98-102 | a given status is taken whatever the current one; id, items, total and createdAt are kept; updatedAt is the new time |
| OrderService.AppService.constructor | backend/service-b/src/app.service.ts:8-9 | the store starts empty with counter 1 and keeps its invariant |
| OrderService.AppService.Create | backend/service-b/src/app.service.ts:13-41 | on refusal the error is returned and nothing changes; otherwise a pending order with the items as given, the computed total, a never-issued id from the old counter and `now` is appended and the counter grows by 1 |
| OrderService.AppService.FindAll | backend/service-b/src/app.service.ts:43-45 | the stored orders, position by position |
| OrderService.AppService.FindOne | backend/service-b/src/app.service.ts:68-70 | none iff no order holds the id, else the first that does |
| OrderService.AppService.FindAllWithProducts | backend/service-b/src/app.service.ts:47-66 | no lookup when no order has items; otherwise one lookup of the distinct ids, whose failure is the result's, with the lookup's message; on success one enriched entry per stored order, in order |
| OrderService.AppService.FindOneWithProducts | backend/service-b/src/app.service.ts:72-91 | none, without a lookup, for an unknown id; else the lookup's failure or the enriched order |
| OrderService.AppService.Update | backend/service-b/src/app.service.ts:93-104 | an unknown id gives none and changes nothing; a known id replaces only its slot with the status applied; counter and invariant kept |
| OrderService.AppService.Remove | backend/service-b/src/app.service.ts:106-113 | returns whether the id was stored; only that slot is spliced out, the rest keep their order; the counter is kept |
| OrderService.NoIdsNoItems | backend/service-b/src/app.service.ts:49-52 | when the orders carry no product id, no order has an item, so skipping the lookup loses nothing |
| OrderService.ListAgainstStore | backend/service-b/src/app.service.ts:47-66 | against the product store, listing succeeds and each item carries the product now stored under its id, or none |
| OrderService.FindOneAgainstStore | backend/service-b/src/app.service.ts:72-91 | against the product store, a stored order is returned with each item carrying the product now stored under its id |
| Gateway.MessageOr | backend/api-gateway/src/app.controller.ts:81 | a non-empty message is kept, an empty one becomes "Failed to create order" |
| Gateway.FirstStop | backend/api-gateway/src/app.controller.ts:66-70 | the loop reaches the returned position: every earlier item is a well-formed object, and the item there, if any, is `null` or malformed |
| Gateway.CheckItems | backend/api-gateway/src/app.controller.ts:66-70 | the item loop passes iff every item is an object with a non-empty productId and a positive quantity; it throws the TypeError iff a `null` item comes before any malformed one, and the HTTP 400 iff a malformed item comes before any `null` one |
| Gateway.Classify | backend/api-gateway/src/app.controller.ts:79-92 | a plain reply is returned unchanged; an error marker becomes 400 with its message or the default; an HTTP exception is rethrown as is; another error keeps its non-zero status or becomes 500 |
| Gateway.CreateOrder | backend/api-gateway/src/app.controller.ts:58-94 | a missing or empty item list gives 400 "Order must have at least one item"; a malformed item before any `null` one gives 400 with the item message; a `null` item before any malformed one gives 500 with the TypeError's message; an accepted body is classified; a body is returned iff the request is accepted and the reply is plain |
| Gateway.RefusedBeforeDispatch | backend/api-gateway/src/app.controller.ts:60-77 | a refused body gets the same response whatever the order service would answer: 500 when a `null` item comes first, 400 otherwise |
| Gateway.TimeoutIsServerError | backend/api-gateway/src/app.controller.ts:72-92 | when the timer wins, the answer is 500 "Request timeout" |
| OrderFlow.CreateReply | backend/service-b/src/app.controller.ts:44-53 | a created order is replied plain; a thrown error becomes an error marker with its message or the default |
| OrderFlow.RefusalIsBadRequest | backend/api-gateway/src/app.controller.ts:80-82 | for a body the gateway accepts and forwards unchanged, every refusal by the order service reaches the client as 400 with the service's message |
| OrderFlow.RepeatedProductIsBadRequest | backend/service-b/src/app.service.ts:21-23 | an accepted body, forwarded unchanged to the order service, that names one product twice ends in 400 "One or more products not found" |
| OrderFlow.GatewayItemMeetsQuantityBound | backend/api-gateway/src/app.controller.ts:66-70 | an item the gateway lets through meets the quantity bound, and is valid iff its price is non-negative |
| DynamicFormField.Lower | frontend/components/DynamicFormField.tsx:30 | an upper-case letter becomes the lower-case letter at the same alphabet position; every other character is unchanged |
| DynamicFormField.LowerAll | frontend/components/DynamicFormField.tsx:30 | each character is lower-cased in place |
| DynamicFormField.CollapseSpaces | frontend/components/DynamicFormField.tsx:30 | the result has no whitespace and adds no upper-case letter |
| DynamicFormField.CollapseFromShape | frontend/components/DynamicFormField.tsx:30 | the scan leaves no whitespace and adds no upper-case letter |
| DynamicFormField.NormalizeName | frontend/components/DynamicFormField.tsx:30 | the key has no upper-case letter and no whitespace |
| DynamicFormField.CollapseFromAppend | frontend/components/DynamicFormField.tsx:30 | replacing in `x + y` is replacing in `x`, then in `y` with the run state `x` leaves |
| DynamicFormField.CollapseFromCons | frontend/components/DynamicFormField.tsx:30 | a non-space character is kept; a space opens a run with one `_`, and adds nothing inside a run |
| DynamicFormField.RunStateIrrelevant | frontend/components/DynamicFormField.tsx:30 | text that does not start with whitespace is replaced the same inside or outside a run |
| DynamicFormField.RunAbsorbed | frontend/components/DynamicFormField.tsx:30 | whitespace inside a run produces nothing more |
| DynamicFormField.CollapseSpaceless | frontend/components/DynamicFormField.tsx:30 | text without whitespace is unchanged by the replacement |
| DynamicFormField.NormalizeSpaceless | frontend/components/DynamicFormField.tsx:30 | a name without whitespace is only lower-cased |
| DynamicFormField.NormalizeIdempotent | frontend/components/DynamicFormField.tsx:30 | normalising a normalised name changes nothing |
| DynamicFormField.CollapseRun | frontend/components/DynamicFormField.tsx:30 | a maximal whitespace run becomes exactly one `_` |
| DynamicFormField.CollapseAppend | frontend/components/DynamicFormField.tsx:30 | the replacement works piece by piece when no whitespace run straddles the seam |
| DynamicFormField.LowerAllAppend | frontend/components/DynamicFormField.tsx:30 | lower-casing works piece by piece |
| DynamicFormField.NormalizeAppend | frontend/components/DynamicFormField.tsx:30 | normalisation works piece by piece when no whitespace run straddles the seam |
| DynamicFormField.NormalizeRun | frontend/components/DynamicFormField.tsx:30 | a maximal whitespace run in a name becomes exactly one `_` |
| DynamicFormField.IndexOf | frontend/components/DynamicFormField.tsx:60 | -1 iff the character is absent, else its first position |
| DynamicFormField.LastIndexOf | frontend/components/DynamicFormField.tsx:60 | -1 iff the character is absent, else its last position |
| DynamicFormField.MatchesEmail | frontend/components/DynamicFormField.tsx:60 | accepts exactly the language of the pattern: local characters, `@`, domain characters, `.`, two or more letters |
| DynamicFormField.EmailFieldRule | frontend/components/DynamicFormField.tsx:57-63 | a TEXT field named "email" in any case carries the pattern rule with "Invalid email address", and the rule accepts exactly the language of the e-mail pattern |
| DynamicFormField.FieldRules | frontend/components/DynamicFormField.tsx:34-154 | rules exist iff the type is TEXT, LIST or RADIO; required carries "`<name>` is required" iff the field is required; length rules iff TEXT and the bound is non-zero; the e-mail pattern iff TEXT and the lower-cased name is "email" |
| SignupForm.DefaultValues | frontend/components/SignupForm.tsx:30-34 | the loop builds exactly the fold: one assignment per field, in order, each as on a plain object, where an assignment under `__proto__` adds no entry |
| SignupForm.DefaultsKeys | frontend/components/SignupForm.tsx:30-34 | the keys are exactly the fields' normalised names other than `__proto__`, and there are no more keys than fields |
| SignupForm.DefaultsLastWins | frontend/components/SignupForm.tsx:30-34 | the last field with a name has an entry iff the name is not `__proto__`, and that entry holds its default |
| SignupForm.MissingDefaultIsEmpty | frontend/components/SignupForm.tsx:32 | a field without a default starts as "", unless its name is `__proto__`, which gets no entry |
| SignupForm.DistinctNamesKeepEveryField | frontend/components/SignupForm.tsx:30-34 | with distinct normalised names every field not named `__proto__` has its own entry holding its default, and `__proto__` has none |

## Left out

- Network I/O: the HTTP calls to `/products/by-ids` are a lookup function parameter that returns the products or the error message. Lemmas instantiate it with the product store's `FilterByIds` on a snapshot of the table.
- The TCP transport between gateway and services, and the routing in both services' controllers, are not modelled. Only the order service's `create_order` error-marker reply is modelled (`CreateReply`).
- The other gateway endpoints forward a request and are not modelled.
- The 10-second `Promise.race` timer is not modelled. Its effect is one case of the abstract dispatch outcome (`RequestTimeout`).
- Clock timestamps are not modelled: `new Date().toISOString()` is an opaque `now` value supplied by the caller.
- ProductService.AppService.Create, OrderService.AppService.Create: both set `createdAt` and `updatedAt` to the one `now`. The source calls `new Date()` twice, so the two times can differ by the time between the calls.
- Floating-point numbers are not modelled: prices, stock, quantities and totals are integers (cents). Rounding and `NaN` are outside the model.
- Unicode is not modelled: lower-casing and whitespace follow ASCII only.
- The class-validator machinery is not modelled; only the constraints it encodes are. So are the type checks (`IsString`, `IsNumber`, `IsArray`), which the typed model makes hold by construction for every value that is present.
- ProductEntity.Merge, OrderService.ApplyStatus: `@IsOptional()` skips every check for a `null` field as well as for a missing one, and the spread then writes that `null` over the stored field (a product name of `null`, an order status outside the five). The model's `Option` has only "absent" and "present with a value", so it cannot express a supplied `null`. Bound preservation by `Merge` therefore holds only for updates without a `null` field.
- Payloads are not validated on arrival over TCP. A status outside the enum, or extra keys in an update (an `id`, say), would be spread into the stored record. The model types the status as the enum and the update as its declared fields, so it does not capture this.
- ProductService.AppService.Create: a create payload that carries an `id` key overrides the counter id, because `...createProductDto` is spread after `id`. Such a payload can store a second product under an id already in use. That breaks the distinct-id invariant (`Valid`), and with it the facts built on it, such as the refusal of an order that names one product twice. The model's DTO has only its declared fields, so it does not capture this.
- ProductService.AppService.Create, OrderService.AppService.Create: the counter is a JavaScript number. From 2^53 on, `idCounter++` no longer changes it, so ids would repeat. The model's counter is an unbounded natural, so "ids are never reused" holds without that bound.
- The gateway item check in the model reads an item as `null` or an object, its `productId` as an optional string and its `quantity` as an optional integer. Other JavaScript types are not modelled. The message of the TypeError thrown for a `null` item is the one Node.js gives; other runtimes word it differently.
- Common.Dedup: the contract does not state that `Set` keeps the order of first occurrence. The lemmas do not depend on it.
- The UI is not modelled: rendering, the `type="email"` input attribute, the LIST and RADIO option lists, the submit handler, its `setTimeout` and the reset.
- Storage is not modelled: `frontend/utils/storage.ts`, `localStorage` and JSON, along with the process bootstrap (`main.ts`) and module wiring (`app.module.ts`).
- Concurrency is not modelled: interleaved requests to a store are not covered. Each store method runs to completion.
