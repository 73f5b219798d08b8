# Ledger engine of the smart business assistant

This project models the backend of a small-business assistant: its ledger engine, written in Dafny with proofs about the model. The engine keeps one dataset in memory. The dataset holds three record collections (`transactions`, `customers`, `debts`) and derived `metrics`:

- `totalRevenue`;
- `totalExpenses`;
- `netIncome`.

The request handlers:

- validate new records;
- stamp records with ids and timestamps;
- merge updates, filter deletions;
- settle debt payments, each of which books one income transaction.

The store recomputes the metrics after every change to the transactions.

Files:

- `jsvalues.dfy`, module `JsValues`: the JSON values the records hold (text, integer, boolean, null) and the JavaScript coercions the backend relies on. These are truthiness, `Number(x)`, `String(x)`, `>=` and `+` with a string on the left. `JsValues.NumberTextRoundTrip` shows that `String` and `Number` agree on every integer, so an amount rendered into text reads back as the same number. A record is a map from field name to value, and object spread is map union, where the right operand wins.
- `validate.dfy`, module `Validate`: the three entry validators, as functions returning their messages in check order.
- `metrics.dfy`, module `Metrics`: the filter-and-sum computation of the metrics. It is proved equal to `Tally`, an independent running ledger that books one transaction at a time. Lemmas show how appending, removing and replacing one transaction moves the metrics.
- `storage.dfy`, module `Storage`: the dataset as the class `Store`. Its invariant `Valid()` says the stored metrics equal the fold over the current transactions. Every store operation keeps it.
- `controller.dfy`, module `Controller`: the handlers for creating, updating, deleting and paying debts. Their outcome replaces the HTTP responses.
- `scenario.dfy`, module `Walkthrough`: two walk-throughs.
  - Book an income of 100, then an expense of 40, then delete the expense. This is stated both on the stored records and as a run of the handlers on a fresh store.
  - Create a debt of 500, then pay it off in two instalments.

Fresh ids and timestamps are parameters of the operations. One timestamp `now` stands for every clock reading within one handler.

## Model

| member | source | states |
|---|---|---|
| Validate.ValidateTransaction | smart-business-assistant/backend/src/services/validate.service.js:1-7 | no errors iff the amount is truthy and numeric, the type is income or expense and the category is truthy; each message appears iff its own check fails; messages in the order amount, type, category; at most three |
| Validate.ValidateCustomer | smart-business-assistant/backend/src/services/validate.service.js:9-14 | no errors iff name and phone are truthy; each message iff its check fails; name without phone gives exactly the phone message, neither gives both with the name first |
| Validate.ValidateDebt | smart-business-assistant/backend/src/services/validate.service.js:16-22 | no errors iff customer name, a truthy numeric amount and a due date are present; each message iff its check fails; order customer name, amount, due date; at most three |
| Validate.AmountSign | smart-business-assistant/backend/src/services/validate.service.js:3-19 | for a numeric amount, both amount checks fail exactly when it is 0: zero is rejected, negative amounts pass |
| Metrics.MetricsOf | smart-business-assistant/backend/src/services/storage.service.js:96-108 | the metrics of a transaction list: revenue sums the income amounts, expenses sum the expense amounts (a NaN amount counts 0), and net income is always revenue minus expenses |
| Metrics.MetricsIsTally | smart-business-assistant/backend/src/services/storage.service.js:95-109 | the computed metrics equal the running ledger that adds each income to revenue and each expense to expenses, with net income always revenue minus expenses |
| Metrics.MetricsAppend | smart-business-assistant/backend/src/services/storage.service.js:50-55 | appending a transaction adds exactly its effect to the metrics |
| Metrics.MetricsConcat | smart-business-assistant/backend/src/services/storage.service.js:97-102 | the metrics of two concatenated transaction lists are the sum of their metrics, so order does not matter |
| Metrics.NeutralTransaction | smart-business-assistant/backend/src/services/storage.service.js:97-102 | a transaction of another type, or with a NaN or zero amount, leaves the metrics unchanged wherever it stands |
| Metrics.MetricsRemove | smart-business-assistant/backend/src/services/storage.service.js:83-88 | removing one transaction takes exactly its effect out of the metrics |
| Metrics.MetricsReplace | smart-business-assistant/backend/src/services/storage.service.js:68-72 | replacing one transaction swaps its effect for the new one's |
| Storage.IndexOfId | smart-business-assistant/backend/src/services/storage.service.js:65 | the index of the first record with the id, or -1 exactly when no record has it |
| Storage.Without | smart-business-assistant/backend/src/services/storage.service.js:83 | the filtered list keeps every record without the id and only those; it is as long as the input iff no record had the id |
| Storage.WithoutConcat | smart-business-assistant/backend/src/services/storage.service.js:83 | filtering distributes over concatenation, so survivors keep their relative order |
| Storage.WithoutCounts | smart-business-assistant/backend/src/services/storage.service.js:83 | each record without the id survives the filter exactly as often as it occurs; records with the id have no copies left |
| Storage.WithoutNoMatch | smart-business-assistant/backend/src/services/storage.service.js:82-85 | with no record carrying the id, the filter returns the collection unchanged |
| Storage.NewRecord | smart-business-assistant/backend/src/services/storage.service.js:49 | the new record has the item's fields plus id and createdAt; the item's own values win, the generated ones fill in only when absent |
| Storage.Merge | smart-business-assistant/backend/src/services/storage.service.js:68 | the merged record has the old fields overlaid by the updates, with updatedAt set to now in every case |
| Storage.Store.constructor | smart-business-assistant/backend/src/services/storage.service.js:12-21 | the initial dataset: three empty collections and all-zero metrics, which satisfies the invariant |
| Storage.Store.GetItems | smart-business-assistant/backend/src/services/storage.service.js:40-43 | a collection's records in order; an unknown collection reads as empty |
| Storage.Store.UpdateMetrics | smart-business-assistant/backend/src/services/storage.service.js:95-109 | after the recomputation the stored metrics equal the fold over the transactions |
| Storage.Store.AddItem | smart-business-assistant/backend/src/services/storage.service.js:45-59 | exactly one new record is appended at the end of the collection and returned; other collections unchanged; metrics unchanged off transactions, raised by the record's effect on transactions; the invariant is kept |
| Storage.Store.UpdateItem | smart-business-assistant/backend/src/services/storage.service.js:61-76 | a missing collection or id returns none and changes nothing; otherwise only the first matching record is replaced by the merge, the length is kept, and on transactions the metrics swap the old record's effect for the new one's |
| Storage.Store.DeleteItem | smart-business-assistant/backend/src/services/storage.service.js:78-93 | true iff some record had the id; then the collection is the filtered list and no record with the id remains; on false nothing changes; the invariant is kept |
| Storage.DeleteUniqueMetrics | smart-business-assistant/backend/src/services/storage.service.js:83-88 | deleting the only transaction with an id leaves the others in order and takes its effect out of the metrics |
| Controller.ValidTransactionEffect | smart-business-assistant/backend/src/controllers/data.controller.js:19-25 | a transaction that passed validation moves exactly one of revenue and expenses by its amount |
| Controller.CreateTransaction | smart-business-assistant/backend/src/controllers/data.controller.js:19-25 | invalid input gives the validation errors and stores nothing; valid input appends the stamped record and adds its effect to the metrics |
| Controller.CreateCustomer | smart-business-assistant/backend/src/controllers/data.controller.js:40-46 | invalid input gives the validation errors and stores nothing; valid input appends the stamped customer and leaves the metrics alone |
| Controller.DebtDefaults | smart-business-assistant/backend/src/controllers/data.controller.js:66 | status is unpaid and the paid amount 0 whatever the input said; every other field is the input's |
| Controller.CreateDebt | smart-business-assistant/backend/src/controllers/data.controller.js:61-69 | invalid input gives the validation errors and stores nothing; a created debt is appended and is always unpaid with paid amount 0 |
| Controller.UpdateRecord | smart-business-assistant/backend/src/controllers/data.controller.js:27-31 | the update of all three kinds (also lines 48-52 and 71-75): no validation; not found exactly when no record has the id, and then nothing changes; otherwise the merged record is returned and stored in place |
| Controller.DeleteRecord | smart-business-assistant/backend/src/controllers/data.controller.js:33-37 | the deletion of all three kinds (also lines 54-58 and 103-107): deleted iff some record had the id, otherwise not found with nothing changed |
| Controller.Settle | smart-business-assistant/backend/src/controllers/data.controller.js:82-88 | the paid debt has the new paid amount, status paid iff that amount is at least the amount owed and partial otherwise, updatedAt now, and every other field (amount, customer name, due date) unchanged |
| Controller.NumericPayment | smart-business-assistant/backend/src/controllers/data.controller.js:82-85 | with numeric amounts the paid amount grows by exactly the payment and the status is paid iff it reaches the amount owed, partial iff below, for zero, negative and excess payments alike |
| Controller.Repayment | smart-business-assistant/backend/src/controllers/data.controller.js:92-98 | the booked repayment has exactly the fields amount, type, category, description and date: it is income, its amount is the payment, its category Debt Repayment and its date now |
| Controller.RepaymentEffect | smart-business-assistant/backend/src/controllers/data.controller.js:92-98 | the booked repayment is income of exactly the payment |
| Controller.RepaymentRaisesRevenue | smart-business-assistant/backend/src/controllers/data.controller.js:92-98 | booking the repayment raises revenue and net income by the payment and leaves expenses alone |
| Controller.PayDebt | smart-business-assistant/backend/src/controllers/data.controller.js:77-101 | an unknown id gives not found and changes nothing; otherwise the debt is settled in place, exactly one repayment transaction is appended, and the metrics rise by the payment on revenue and net income |
| Walkthrough.BookingFacts | smart-business-assistant/backend/src/services/validate.service.js:1-7 | a booking with a nonzero amount, a category and type income or expense passes validation, and its stored record keeps its id, type and amount |
| Walkthrough.StoredBookings | smart-business-assistant/backend/src/services/storage.service.js:49 | the records stored for an income booking with id t1 and an expense booking with id t2 carry those ids, types and amounts |
| Walkthrough.AfterSale | smart-business-assistant/backend/src/services/storage.service.js:95-109 | with only an income of x booked, the metrics are (x, 0, x): 100 gives (100, 0, 100) |
| Walkthrough.AfterRent | smart-business-assistant/backend/src/services/storage.service.js:95-109 | an expense of y appended after an income of x gives (x, y, x - y): 100 and 40 give (100, 40, 60) |
| Walkthrough.AfterDelete | smart-business-assistant/backend/src/services/storage.service.js:78-109 | deleting the expense by its id leaves only the income and metrics (x, 0, x) again |
| Walkthrough.BookingRun | smart-business-assistant/backend/src/controllers/data.controller.js:19-37 | through the handlers on a fresh store: after booking an income of x the metrics are (x, 0, x), after an expense of y they are (x, y, x - y), and after deleting the expense (x, 0, x) again |
| Walkthrough.DebtWalkthrough | smart-business-assistant/backend/src/controllers/data.controller.js:61-101 | a new debt of 500 is unpaid at 0; paying 200 leaves it partial at 200; paying 300 more makes it paid at 500; a payment books income of its amount |

## Left out

- File I/O: the model does not cover reading and writing the JSON file, serialisation, `initDB`'s file check or `readData`'s re-initialise-and-retry. The dataset is in-memory state, and each write commits the new field values.
- `getData` returns the whole dataset read from file. It is I/O and is not modelled.
- `generateId` (`utils/id.js` is not part of this model) and `new Date().toISOString()` are not modelled: they are foreign and non-deterministic. The fresh id and the timestamp are parameters.
- Controller.PayDebt: uses one timestamp for the debt's `updatedAt`, the transaction's `date` and its `createdAt`, where the source reads the clock three times.
- Controller.PayDebt: takes the payment as an integer, so a missing or non-numeric `amount` (NaN in the source) is not modelled.
- Numbers are unbounded integers. Fractional amounts, floating-point rounding, and numeric strings with whitespace, decimals, exponents, hexadecimal digits, binary (`0b`) or octal (`0o`) prefixes or `Infinity` are not modelled. A numeric string is an optional sign plus decimal digits, and the empty string is 0.
- Field values that are objects or arrays are not modelled. Only text, numbers, booleans and null are.
- The field order of serialised JSON objects is not modelled, since a record is a map.
- A collection name that JavaScript resolves to something other than a collection reads as an empty collection in the model: `metrics` (the metrics object), and inherited `Object.prototype` names such as `constructor`, `toString` or `__proto__`, for which `getItems` returns a non-array and `addItem` throws. The handlers never pass these names.
- String order (`>=` on two texts in `payDebt`) compares Unicode scalar values, where JavaScript compares UTF-16 code units; the two differ only for characters above U+FFFF.
- HTTP status codes, response envelopes and message texts (`utils/response.js`) are summarised by `Controller.Outcome`, as are the 500 handler for thrown errors, routing and server set-up.
- Concurrency is not modelled: that covers the read-modify-write race between requests and the two separate writes of `payDebt`. Each handler is one sequential step.
- The AI assistant service, the health and AI routes, configuration, the date helpers and the browser front end are outside the ledger engine and are not modelled.
