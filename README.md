# Stock level service — Dafny model

This project models the stock-level computation of a small TypeScript
service. Given a SKU (stock-keeping unit), the service:

- looks up the SKU's base stock record in a stock list;
- looks up the SKU's transactions in a transaction list;
- folds those transactions onto the base quantity. An `order` subtracts
  its quantity, a `refund` adds it back, and any other type is ignored.

The query fails with "Stock not found" when the SKU has neither a stock
record nor any transaction.

Modules, one per source file:

- `Interfaces` (`interfaces.dfy`): the records `StockRecord`, `Transaction`
  and `StockLevel` (IStock, ITransaction and IResponseStock). It also holds
  `TxKind`, with an `Other` case for type strings that are neither `order`
  nor `refund`, `Error` (a JavaScript error, identified by its message), and
  `Option`/`Result` in place of `null` and rejected promises.
- `StockDao` (`stock_dao.dfy`): the stock reader. `Find` is the
  first-match `find`. `FindBySku` maps every failed read to the error
  "Could not find stock".
- `TransactionDao` (`transaction_dao.dfy`): the transaction reader.
  `Filter` is the order-preserving `filter`. `FindBySku` passes a failed
  read on unchanged.
- `StockService` (`stock_service.dfy`): the calculator. The method
  `GetCurrentStockLevel` walks the transactions in a loop and updates a
  `StockLevel` record, as the source does. It is proved equal to the
  function `CurrentStockLevel`, whose successful value is the closed form
  `NetQty` = base − Σ order quantities + Σ refund quantities.

The service receives its two readers as the function parameters `findStock`
and `findTransactions`. These play the part of the injected data-access
objects. The lemma `ServiceOverReaders` composes the service with the two
modelled readers.

Quantities are mathematical integers.

## Model

| member | source | states |
|---|---|---|
| `StockDao.Find` | src/dao/stock.dao.ts:20 | `None` exactly when no record in the list has the SKU; a found record has the queried SKU, is a member of the list, and sits at a position no earlier record with that SKU precedes |
| `StockDao.FindIsFirstMatch` | src/dao/stock.dao.ts:20 | whenever position `i` holds the first record with the SKU, the lookup returns exactly that record (duplicates later in the list are never chosen) |
| `StockDao.FindBySku` | src/dao/stock.dao.ts:17-24 | fails exactly when the source read failed, and then always with "Could not find stock"; otherwise gives the first-match lookup over the list `findAll` returned |
| `StockDao.FoundRecordComesFromSource` | src/dao/stock.dao.ts:19-20 | after a successful read the lookup succeeds, and any record it finds has the queried SKU and is one of the records of the source list |
| `StockDao.FailureCauseIsLost` | src/dao/stock.dao.ts:21-23 | two different read errors give the same result, the fixed "Could not find stock" error |
| `StockDao.FixtureLookups` | src/dao/stock/stock.dao.test.ts:40-57 | on the test fixture, 'test-sku-1' gives the first record, an unknown SKU gives `null`, and a failed read gives "Could not find stock" |
| `TransactionDao.Filter` | src/dao/transaction.dao.ts:21 | the result is no longer than the list, holds only transactions for the SKU, and is empty exactly when no transaction in the list has the SKU |
| `TransactionDao.FilterIsSubsequence` | src/dao/transaction.dao.ts:21 | the result is a subsequence of the source list: original order kept |
| `TransactionDao.FilterKeepsAllMatches` | src/dao/transaction.dao.ts:21 | every transaction for the SKU occurs in the result as many times as in the source list |
| `TransactionDao.FilterUnique` | src/dao/transaction.dao.ts:21 | any subsequence of the list holding only transactions for the SKU, and every occurrence of each, is the filter's result: the result is exactly the matching subsequence |
| `TransactionDao.FilterIdempotent` | src/dao/transaction.dao.ts:21 | filtering the result again by the same SKU changes nothing |
| `TransactionDao.FilterAppend` | src/dao/transaction.dao.ts:21 | filtering a concatenation is the concatenation of the filtered parts |
| `TransactionDao.FindBySku` | src/dao/transaction.dao.ts:18-25 | fails exactly when the source read failed, with that read's own error; otherwise gives the filtered list |
| `TransactionDao.FailurePassesThrough` | src/dao/transaction.dao.ts:22-24 | any read error comes back unchanged |
| `TransactionDao.FixtureLookups` | src/dao/transaction/transaction.dao.test.ts:43-64 | on the test fixture, 'trans-sku-1' gives its one transaction, an unknown SKU gives `[]`, and a failed read keeps the message "File read error" |
| `StockService.GetCurrentStockLevel` | src/services/stock.service.ts:12-42 | the result of the step-by-step walk equals `CurrentStockLevel` of the two lookups: the stock lookup's error, else the transaction lookup's error, else "Stock not found" when there is no record and no transaction, else the queried SKU with base (0 without a record) − Σ order qty + Σ refund qty |
| `StockService.SumQtyAppend` | src/services/stock.service.ts:32-39 | the per-kind sum over a concatenation is the sum of the per-kind sums, so the walk over a prefix extends one transaction at a time |
| `StockService.AppendOne` | src/services/stock.service.ts:32-39 | one more transaction moves the level by −qty for an order, +qty for a refund and 0 for any other kind |
| `StockService.OtherKindIsInert` | src/services/stock.service.ts:33-37 | inserting a transaction of an unknown kind anywhere in the list leaves the level unchanged |
| `StockService.UnknownKindAloneSucceeds` | src/services/stock.service.ts:27-37 | without a stock record, a lone transaction of an unknown kind still avoids "Stock not found" and gives level 0 |
| `StockService.ResultCarriesQueriedSku` | src/services/stock.service.ts:18-19 | a successful result carries the queried SKU |
| `StockService.NoTransactionsGivesBaseStock` | src/services/stock.service.ts:18-30 | with a stock record and no transactions, the level is the record's stock |
| `StockService.TransactionsWithoutStockSucceed` | src/services/stock.service.ts:20-39 | without a stock record, a non-empty transaction list succeeds with Σ refund qty − Σ order qty, which may be negative |
| `StockService.NothingKnownFails` | src/services/stock.service.ts:27-29 | with no record and no transactions, the query fails with "Stock not found" |
| `StockService.StockFailureShortCircuits` | src/services/stock.service.ts:13-16 | a failed stock lookup is the result as it is, whatever the transaction lookup gives |
| `StockService.TransactionFailurePropagates` | src/services/stock.service.ts:22-25 | a failed transaction lookup is the result as it is, whether or not a stock record was found |
| `StockService.TestScenarios` | src/services/stock.service.test.ts:51-98 | stock 10 with [order 3, refund 1] gives 8; with [order 2, refund 1, order 4] gives 5; with no transactions gives 10; no record with [order 3] gives −3 |
| `StockService.ServiceOverReaders` | src/services/stock.service.ts:12-42 | over the two real readers: a failed stock read gives "Could not find stock" whatever the transaction source holds; a failed transaction read gives its own error; otherwise "Stock not found" exactly when neither source list holds the SKU, and else the first record's stock adjusted by the SKU's filtered transactions |

## Left out

- `findAll` of both readers (src/dao/stock.dao.ts:12-15, src/dao/transaction.dao.ts:12-16) reads a JSON file from disk and parses it. It is not modelled as a function. Its outcome is the `source` parameter of each `FindBySku`: either the parsed list or the error the read or parse failed with.
- The file paths built with `path.join` are left out, as is the shape of the JSON documents. Records are taken as already well-formed.
- `async`/`await` and promises: the flow is sequential, so each call returns a `Result`.
- The inversify container and `reflect-metadata` (src/config/inversify.config.ts) are left out. The service receives the readers as function parameters.
- The command-line entry point src/index.ts, which only prints, is not part of this model.
- The `instanceof Error` checks at src/services/stock.service.ts:14 and :23 are subsumed by the `Result` type: a reader either rejects, and the model propagates that failure, or resolves to a value.
- JavaScript `number` semantics are not modelled. Quantities are unbounded integers, so floating-point rounding and `NaN` are out of scope, including the `|| 0` fallback on a non-numeric `stock` field.
- A transaction reader that resolves to `null` or `undefined` instead of a list is out of scope: `findTransactions` always yields a list or an error. The real `TransactionDAO` always yields an array, since it returns the result of `filter`. For such a reader, the `transactions &&` guard at src/services/stock.service.ts:27 skips the "Stock not found" check, and the `for…of` at line 32 then throws a `TypeError`.
- The transaction `qty` is not constrained to be non-negative, because the source never checks it.
- src/services/stock.test.ts needs the real data file and is not part of this model.
- `StockService.StockFailureShortCircuits`: the source never calls the transaction reader after a stock failure. The model's readers are pure functions, so this is stated more weakly: the result does not depend on the transaction lookup at all.
