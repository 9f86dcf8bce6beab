# ShopDataGenerator, modelled in Dafny

This project models the row generator of the shop database seeder:
`ShopDataGenerator` in `lib/data_generator.py` and the seven entity records of
`lib/data_classes.py`. The generator fills seven related tables: provider,
storage, delivery, product, delivery line, invoice and invoice line. Each
generator call does four things:

- allocates the next ID as max + 1;
- draws names until one is unused;
- samples foreign keys from the IDs that exist;
- for invoices, picks a storage and a quantity so that stock is not
  over-invoiced.

The call then optionally appends the row. `execute` calls every generator its
configured number of times.

How the model represents the program:

- **The database** is the class `Store.Database`. It holds one sequence of rows
  per table, and `InsertRecord` appends one record to its table.
- **The ClickHouse queries** become functions over those rows:
  - `SELECT max(ID)` is `MaxId`;
  - the `IN Names` test is `CheckNameValueAvailable`;
  - the two aggregate queries with their LEFT JOIN and GROUP BY are
    `DeliveryAggregate` and `InvoiceAggregate`.
- **Every random draw is a parameter.** `choice` and `randrange` with constant
  bounds give the drawn value, bounded by a precondition. `DataFrame.sample`,
  `randrange(1, ...)` on a stock figure and `random()` are a `Uniform`
  fraction. Every outcome of the source's draw is reachable this way (see
  `BelowCovers`, `RandRangeCovers` and `EveryQuantityDrawable`).
- **A retry loop** reads a finite sequence of draws. Running out of draws
  (`DrawsExhausted`) stands for the source retrying for ever.
- **Each generator call** is a `Generator.ShopDataGenerator` method that
  changes the database and the three caches. Its result is that of a
  specification function over the tables before the call: `ProviderRow`,
  `StorageRow`, `DeliveryRow`, `ProductRow`, `DeliveryLineRow` and
  `InvoiceRows`. Those functions carry what the call promises.
- **Each loop of `execute`** is a `Run*` method. Its new tables and error are
  those of a fold over the same specification function: `ProvidersRun`,
  `StoragesRun`, `DeliveriesRun`, `ProductsRun`, `DeliveryLinesRun` and
  `InvoicesRun`. The fold appends each call's row in turn and stops at the
  first failure.
- **The class invariant `Valid`** is `Consistency.Consistent` together with the
  cache invariant. `Consistent` requires these things:
  - IDs increase;
  - provider names and storage names and addresses are unique;
  - every foreign key resolves;
  - delivery times lie in the default window;
  - quantities are positive;
  - for every (product, storage), the invoiced quantity is at most the
    delivered quantity.

  Every insert the generator performs keeps `Consistent`.

Quirks of the code that the model keeps:

- **The product "code" check** compares the new product's name with the Code
  column (lines 236-237). The model reads that test as comparing the name with
  the code's decimal text (see "## Left out"). A composed name contains `_` and
  a code is a number, so the check never fires. The first code drawn is always kept, and a new
  product can repeat an existing code (`ProductCodesMayRepeat`).
- **The merge at line 355 is an inner join.** A storage that has deliveries
  of the product but no invoices for it is not considered once the product
  has any invoice.
- **A difference of 0**, and a first-invoice stock of 1, give
  `randrange(1, 0)` or `randrange(1, 1)`. That is a ValueError, so the call
  fails with `EmptyRange`.
- **The two delivery-line caches** are filled only when both are `None`.
  The delivered-products cache is filled on its first use. After that, all
  three are reused unchanged.

- **A first invoice can be refused.** Its quantity is drawn from
  `[1, int(1.5 × delivered))`, and any draw above the stock is refused.
  `FirstInvoiceCanBeRejected` shows such a refusal for 10 delivered units.
- **The quantity range is half-open and truncated.** `randrange` excludes its
  upper bound and `int` truncates toward zero, so a quantity is drawn from
  `[1, int(1.5 × available))`. That is what `SampleQuantity` draws.
- **The negative-availability branch (lines 358-361) is dead.**
  `NegativeAvailabilityUnreachable` proves it is never taken on a database
  where conservation holds.

## Model

| member | source | states |
|---|---|---|
| Store.MaxId | lib/data_generator.py:35-36 | `None` exactly for an empty column; otherwise a member of the column that is at least every entry |
| Store.NextUintId | lib/data_generator.py:33-38 | once the maximum is read, the next ID is at least 1 and above the maximum; it is 1 exactly when the maximum is NULL or 0, and otherwise the maximum's successor |
| Store.GenerateNextUintId | lib/data_generator.py:32-39 | the next ID is at least 1 and above every existing ID; it is 1 exactly when every ID is 0 or there are none, and otherwise it is an existing ID plus one |
| Store.NextIdKeepsIncreasing | lib/data_generator.py:32-39 | appending the allocated ID keeps a strictly increasing ID column strictly increasing |
| Store.IdsCountFromOne | lib/data_generator.py:32-39 | on a column 1, 2, ..., n the next ID is n + 1 |
| Store.CheckNameValueAvailable | lib/data_generator.py:41-45 | 1 exactly when the value occurs in the column, else 0 |
| Store.Insert | lib/data_generator.py:406-411 | inserting a record adds exactly one row to the database |
| Store.InsertKeepsRows | lib/data_generator.py:406-411 | inserting a record never moves or drops a row: each old table is a prefix of the new one |
| Store.Database.InsertRecord | lib/data_generator.py:406-411 | the record becomes the last row of its own table and nothing else changes |
| Sampling.Below | lib/data_generator.py:221 | a sampled index lies in [0, n) |
| Sampling.BelowCovers | lib/data_generator.py:221 | every index in [0, n) is the outcome of some draw |
| Sampling.RandRange | lib/data_generator.py:47-49 | `randrange(lo, hi)` yields a value in [lo, hi) exactly when lo < hi, and fails otherwise |
| Sampling.RandRangeCovers | lib/data_generator.py:47-49 | every value of a non-empty range is drawn by some draw |
| Sampling.RandomDateTime | lib/data_generator.py:52-61 | the datetime lies in [lo, hi) when lo < hi, is lo when they are equal, and lies between them when they are reversed |
| Sampling.RandomDateTimeCovers | lib/data_generator.py:52-61 | every second in [lo, hi) is the outcome of some draw |
| Sampling.NatToString | lib/data_generator.py:173 | the decimal text of a number is non-empty and made of digits |
| Sampling.NatToStringValue | lib/data_generator.py:173 | the decimal text of a number reads back to that number, and it has no leading zero unless it is "0" |
| Sampling.IntToString | lib/data_generator.py:236-237 | the text of an integer is made of digits and the minus sign |
| Sampling.DrawName | lib/data_generator.py:173 | a composed name is longer than its pool entry and has `_` right after it |
| Sampling.DrawNameParts | lib/data_generator.py:173 | a composed name is `<pool entry>_<n>`: it starts with the pool entry, then `_`, then a non-empty run of decimal digits |
| Sampling.DrawNameIsNotNumber | lib/data_generator.py:233-237 | a composed name is never the text of an integer |
| Generator.DefaultTableNamesAgree | lib/data_classes.py:5-60 | each record's default `TableName` is the generator's default table for that entity |
| Generator.FirstUnused | lib/data_generator.py:172-176 | the retry loop settles on a name exactly when some drawn name is unused; the name it settles on is unused, and it is the first unused one among the draws |
| Generator.DrawUnusedName | lib/data_generator.py:172-176 | the `while` loop over the availability check returns the first unused drawn name, or none when all draws are used |
| Generator.DrawProductCode | lib/data_generator.py:234-238 | the loop keeps a code exactly when a code was drawn and the product name is not in the Code column, and then it keeps the first code drawn; the code's value plays no part |
| Generator.ProductNameIsNeverACode | lib/data_generator.py:233-238 | the name test of the code loop never reports a clash |
| Generator.ProductCodesMayRepeat | lib/data_generator.py:234-241 | a new product can carry the code of an existing product |
| Generator.ProviderRow | lib/data_generator.py:168-182 | succeeds exactly when some drawn name is unused; the provider has the next ID, an unused name that is one of the draws, and the default table name; otherwise the draws ran out |
| Generator.StorageRow | lib/data_generator.py:184-206 | succeeds exactly when some drawn name and some drawn address are unused; both are checked on their own columns, and the storage has the next ID |
| Generator.DeliveryRow | lib/data_generator.py:208-225 | fails exactly when there is no provider or no storage; the delivery has the next ID, an existing provider and storage, and a time in the default window |
| Generator.ProductRow | lib/data_generator.py:227-244 | succeeds exactly when a code was drawn; the product has the next ID, the drawn name, and a code in [10000000, 99999999) |
| Generator.DeliveryLineRow | lib/data_generator.py:246-278 | fails exactly when either cached list is empty; the line has the next ID, a product and a delivery taken from the caches, and a quantity in [1, 100) |
| Generator.InvoiceRows | lib/data_generator.py:280-384 | fails with an empty sample exactly when no product was delivered; it is done, skipped or failed exactly as the decision accepts, rejects or faults; an accepted pair shares the new invoice ID, carries the decided storage and quantity, and is dated from the storage's first delivery up to the default bound |
| Generator.SampledDecisionCovers | lib/data_generator.py:300-371 | every draw decides for one of the delivered products, and each delivered product is the one decided for under some draw of the product index |
| Generator.AcceptedInvoiceKeepsConsistent | lib/data_generator.py:372-384 | on a consistent database an accepted invoice takes at least 1 and no more than what is left at an existing storage; its `DeliveryDateTimeMin` is the earliest delivery of the product at that storage, and the invoice is dated no earlier; inserting the invoice and then its line keeps the database consistent |
| Generator.ShopDataGenerator.constructor | lib/data_generator.py:70-166 | the counts default to 50, 50, 100, 100, 70 and 50, and the three caches start empty |
| Generator.ShopDataGenerator.GenerateProviderRow | lib/data_generator.py:168-182 | returns `ProviderRow` of the tables before the call; with `toInsert` exactly that row is appended, otherwise nothing changes; the invariant is kept |
| Generator.ShopDataGenerator.GenerateStorageRow | lib/data_generator.py:184-206 | returns `StorageRow` of the tables before the call and appends exactly that row when asked |
| Generator.ShopDataGenerator.GenerateDeliveryRow | lib/data_generator.py:208-225 | returns `DeliveryRow` of the tables before the call and appends exactly that row when asked |
| Generator.ShopDataGenerator.GenerateProductRow | lib/data_generator.py:227-244 | returns `ProductRow` of the tables before the call and appends exactly that row when asked |
| Generator.ShopDataGenerator.GenerateDeliveryProductLineRow | lib/data_generator.py:246-278 | fills both caches from the current tables only when both are empty and otherwise leaves them as they are; returns `DeliveryLineRow` over the caches, whose product and delivery exist; appends exactly that row when asked |
| Generator.ShopDataGenerator.GenerateInvoiceRows | lib/data_generator.py:280-384 | fills the delivered-products cache on first use only; returns `InvoiceRows` over it; when accepted and asked, inserts the invoice first and then its line, and nothing else changes |
| Generator.CachesFitInsert | lib/data_generator.py:258-265 | a cached ID list remains a prefix of its current column after any insert |
| Generator.ProvidersRun | lib/data_generator.py:387-388 | the calls of a provider loop, one after another: only the provider table changes, and unless a call fails it gains one row per call |
| Generator.StoragesRun | lib/data_generator.py:390-391 | the same for the storage loop: only the storage table changes, one row per call unless a call fails |
| Generator.DeliveriesRun | lib/data_generator.py:393-394 | the same for the delivery loop |
| Generator.ProductsRun | lib/data_generator.py:396-397 | the same for the product loop |
| Generator.DeliveryLinesRun | lib/data_generator.py:399-400 | the delivery-line loop over fixed cached ID lists: only the delivery-line table changes, one row per call unless a call fails |
| Generator.DeliveryLinesTurnThenRun | lib/data_generator.py:399-400 | the first call of a non-empty delivery-line loop, then the rest, keeps the same growth bounds |
| Generator.InvoicesRun | lib/data_generator.py:402-403 | the invoice loop over a fixed delivered-products list: a refused call inserts nothing and the loop goes on; only the two invoice tables change, and they grow together by at most one row each per call |
| Generator.InvoicesTurnThenRun | lib/data_generator.py:402-403 | the first call of a non-empty invoice loop, then the rest, keeps the same growth bounds |
| Generator.DeliveryLinesRunStep | lib/data_generator.py:399-400 | one turn of the delivery-line loop either ends the run with the call's error or leaves the rest of the run to the new tables |
| Generator.InvoicesRunStep | lib/data_generator.py:402-403 | one turn of the invoice loop either ends the run with the call's error or leaves the rest of the run to the new tables |
| Generator.ShopDataGenerator.RunProviders | lib/data_generator.py:387-388 | the new tables and the error are exactly `ProvidersRun` of the tables before the loop: the `ProviderRow` results appended one by one, stopping at the first failure |
| Generator.ShopDataGenerator.RunStorages | lib/data_generator.py:390-391 | the new tables and the error are exactly `StoragesRun` of the tables before the loop |
| Generator.ShopDataGenerator.RunDeliveries | lib/data_generator.py:393-394 | the new tables and the error are exactly `DeliveriesRun` of the tables before the loop |
| Generator.ShopDataGenerator.RunProducts | lib/data_generator.py:396-397 | the new tables and the error are exactly `ProductsRun` of the tables before the loop |
| Generator.ShopDataGenerator.DeliveryLinesTurn | lib/data_generator.py:399-400 | one call of the delivery-line loop: the caches end up holding the lists the run uses, and the run from the old tables is the call's error or the run of the rest from the new tables |
| Generator.ShopDataGenerator.RunDeliveryLines | lib/data_generator.py:399-400 | both caches are filled from the tables before the loop when they were empty and the loop runs at least once; the new tables and the error are exactly `DeliveryLinesRun` over the cached lists |
| Generator.ShopDataGenerator.InvoicesTurn | lib/data_generator.py:402-403 | one call of the invoice loop: the cache ends up holding the list the run uses, and the run from the old tables is the call's error or the run of the rest from the new tables |
| Generator.ShopDataGenerator.RunInvoices | lib/data_generator.py:402-403 | the delivered-products cache is filled from the tables before the loop when it was empty and the loop runs at least once; the new tables and the error are exactly `InvoicesRun` over the cached list |
| Generator.ShopDataGenerator.Execute | lib/data_generator.py:386-404 | existing rows are never changed; unless a call fails, each non-invoice table grows by exactly its count, and invoices and invoice lines grow together by at most theirs; the invariant is kept |
| Aggregates.DeliveredMin | lib/data_generator.py:305 | `min(DeliveryDateTime)` of a storage's group: none for an empty group, otherwise the time of one of its lines and at most every other |
| Aggregates.DeliveredStorages | lib/data_generator.py:302-322 | the GROUP BY keys are distinct, and they are exactly the storages that received the product |
| Aggregates.DeliveryJoin | lib/data_generator.py:313-321 | the LEFT JOIN of a delivery line on its delivery ID: with no delivery of that ID the storage and time are the defaults 0; otherwise they are those of the last delivery with that ID |
| Aggregates.DeliveryJoinUnique | lib/data_generator.py:313-321 | when delivery IDs are unique, a line joined on a delivery's ID gets exactly that delivery's storage and time |
| Aggregates.DeliveredSumBounds | lib/data_generator.py:304 | `sum(Quantity)` of a storage's group is 0 for an empty group; with non-negative quantities it is non-negative and at least each line of the group |
| Aggregates.DeliveredSumAppend | lib/data_generator.py:304 | one more delivery line adds its quantity to the sum of exactly the (product, storage) group it joins, and nothing to any other |
| Aggregates.DeliveredSumNewDelivery | lib/data_generator.py:313-321 | a new delivery whose ID no line carries leaves every group's sum unchanged |
| Aggregates.DeliveryAggregateRows | lib/data_generator.py:302-322 | `DeliveryAggregate`, the delivered-quantity query: no storage appears twice, and each row holds that storage's delivered sum and earliest delivery time |
| Aggregates.DeliveryAggregateKeys | lib/data_generator.py:302-322 | in `DeliveryAggregate`, each row's storage received the product, and every line of the product has the row of its storage |
| Aggregates.InvoicedStorages | lib/data_generator.py:324-342 | the invoiced GROUP BY keys are distinct, and they are exactly the storages the product was invoiced from |
| Aggregates.InvoiceJoin | lib/data_generator.py:334-341 | the LEFT JOIN of an invoice line on its invoice ID: with no invoice of that ID the storage is the default 0; otherwise it is that of the last invoice with that ID |
| Aggregates.InvoiceJoinUnique | lib/data_generator.py:334-341 | when invoice IDs are unique, a line joined on an invoice's ID gets exactly that invoice's storage |
| Aggregates.InvoicedSumBounds | lib/data_generator.py:326 | `sum(Quantity)` of a storage's invoiced group is 0 for an empty group; with non-negative quantities it is non-negative and at least each line of the group |
| Aggregates.InvoicedSumAppend | lib/data_generator.py:326 | one more invoice line adds its quantity to the sum of exactly the group it joins, and nothing to any other |
| Aggregates.InvoicedSumNewInvoice | lib/data_generator.py:334-341 | a new invoice whose ID no line carries leaves every group's sum unchanged |
| Aggregates.InvoiceAggregateRows | lib/data_generator.py:324-342 | `InvoiceAggregate`, the invoiced-quantity query: no storage appears twice, and each row holds that storage's invoiced sum |
| Aggregates.InvoiceAggregateKeys | lib/data_generator.py:324-342 | in `InvoiceAggregate`, each row's storage was invoiced for the product, and every invoice line of the product has the row of its storage |
| Aggregates.InvoiceAggregateEmpty | lib/data_generator.py:345 | the invoiced aggregate is empty exactly when no invoice line is for the product |
| InvoiceDecision.ArgMaxSum | lib/data_generator.py:346 | the chosen row has the largest delivered sum |
| InvoiceDecision.MaxSum | lib/data_generator.py:346-347 | the largest delivered sum is attained by some row and bounds every row |
| InvoiceDecision.OneAndHalf | lib/data_generator.py:347 | `int(x * 1.5)` truncates toward zero |
| InvoiceDecision.SampleQuantity | lib/data_generator.py:347-348 | an accepted draw lies in [1, available]; an excess draw is above available and below 1.5 times it; the range is empty exactly when available is at most 1 |
| InvoiceDecision.EveryQuantityDrawable | lib/data_generator.py:347 | every quantity from 1 to the stock can be drawn |
| InvoiceDecision.ExcessNeedsFour | lib/data_generator.py:348 | a draw above the stock needs a stock of at least 4 |
| InvoiceDecision.ExcessReachable | lib/data_generator.py:366 | from a stock of 4 on, some draw exceeds it |
| InvoiceDecision.DecideFromDelivered | lib/data_generator.py:345-353 | the storage chosen has the maximum delivered sum M; the quantity drawn from `[1, int(1.5 × M))` is accepted exactly when it is at most M and refused as over-stock otherwise; a refusal names a quantity above M; it fails exactly when M is at most 1 |
| InvoiceDecision.Join | lib/data_generator.py:355-356 | a merged row keeps the delivered row's storage, sum and first delivery time beside the invoiced sum, and its difference plus the invoiced sum is the delivered sum |
| InvoiceDecision.MergeRow | lib/data_generator.py:355-356 | the joined rows of one delivered row are its matches in the invoiced aggregate, with their difference |
| InvoiceDecision.Merge | lib/data_generator.py:355-356 | inner join: a merged row exists exactly for a delivered row and an invoiced row of the same storage |
| InvoiceDecision.ArgMaxDiff | lib/data_generator.py:357 | the chosen merged row has the largest difference |
| InvoiceDecision.MaxDiff | lib/data_generator.py:357-365 | the largest difference is attained by some merged row and bounds every row |
| InvoiceDecision.DecideFromMerged | lib/data_generator.py:355-371 | the chosen storage has the largest difference D; a D of 1 forces quantity 1; from D = 2 on, the quantity drawn from `[1, int(1.5 × D))` is accepted exactly when it is at most D and refused as over-stock otherwise; an over-stock refusal names a quantity above D; it rejects for negative availability exactly when D is negative; it fails exactly when D is 0 |
| InvoiceDecision.DecideInvoice | lib/data_generator.py:345-371 | picks the branch on whether any invoice exists; it fails on an empty aggregate exactly when the rows it needs are absent |
| InvoiceDecision.FirstInvoiceCanBeRejected | lib/data_generator.py:345-353 | the first invoice of 10 delivered units is refused for a draw of 14 |
| Consistency.InsertProviderKeeps | lib/data_generator.py:179-181 | appending a provider with the next ID and an unused name keeps the database consistent |
| Consistency.InsertStorageKeeps | lib/data_generator.py:203-205 | appending a storage with the next ID and an unused name and address keeps the database consistent |
| Consistency.InsertDeliveryKeeps | lib/data_generator.py:222-224 | appending a delivery with the next ID, existing references and an in-window time keeps the database consistent |
| Consistency.InsertProductKeeps | lib/data_generator.py:241-243 | appending a product with the next ID keeps the database consistent |
| Consistency.InsertDeliveryLineKeeps | lib/data_generator.py:271-276 | appending a delivery line with the next ID, existing references and a positive quantity keeps the database consistent |
| Consistency.InsertInvoiceKeeps | lib/data_generator.py:375-381 | appending an invoice with the next ID at an existing storage keeps the database consistent: no line refers to it yet |
| Consistency.InsertInvoiceLineKeeps | lib/data_generator.py:376-382 | appending an invoice line whose quantity fits into what is left keeps the database consistent |
| Consistency.InsertInvoicePairKeeps | lib/data_generator.py:380-382 | inserting the invoice and then its line keeps the database consistent |
| Consistency.IncreasingIdsJoinExactly | lib/data_generator.py:313-341 | on a database with increasing IDs, both LEFT JOINs give each line exactly the storage (and delivery time) of the one parent row with its ID |
| Consistency.DeliveryAggregateRow | lib/data_generator.py:302-322 | on a consistent database each delivered row names an existing storage, holds its delivered sum, and has a first delivery before the default upper bound |
| Consistency.AcceptedInvoiceFits | lib/data_generator.py:345-378 | an accepted decision takes at least 1 and no more than the delivered sum less the invoiced sum, at an existing storage |
| Consistency.AcceptedDateIsFirstDelivery | lib/data_generator.py:302-373 | an accepted decision's `DeliveryDateTimeMin` is the earliest delivery time of the product at the decided storage |
| Consistency.NegativeAvailabilityUnreachable | lib/data_generator.py:358-361 | on a database where conservation holds, the decision never rejects for negative availability |

## Left out

- The ClickHouse client, the SQL strings, `query_dataframe`, `insert_dataframe` and its settings, `DataFrame.from_records` and `sort_values` are not modelled. The model keeps their meaning over in-memory rows. `lib/clickhouse_hook.py`, `lib/load_query.py` and `data_generator_executor.py` are not part of this model. The executor's connection, credentials, DDL loading and RNG seeding are I/O.
- Logging (the warnings at lines 177-178, 195-196, 239-240, 349-352 and 367-370, the error at 359-360, and the `info` lines of `execute`) has no effect on the data and is left out.
- Randomness is replaced by caller-supplied draws. A retry loop that would never find a free value cannot be expressed with finite draws; it appears as `DrawsExhausted`.
- `generate_random_datetime` goes through `strptime`, `mktime` and `localtime` in the local time zone, with float arithmetic. The model uses integer seconds read as UTC, `lo + floor(u * (hi - lo))` for every order of the bounds, as `localtime` truncates the float sum. Daylight-saving shifts and float rounding are not modelled. So is the string round trip of `DeliveryDateTimeMin` at line 373, which the model treats as the identity on whole seconds.
- The configurable query templates and table and column names (constructor, lines 72-103) are fixed at their defaults. The `logger` parameter is left out.
- The optional parameters `min_value` and `max_value` of `generate_product_row` (lines 227-228) are fixed at their defaults 10000000 and 99999999, the constants `MinProductCode` and `MaxProductCode`. The optional `min_quantity` and `max_quantity` of `generate_delivery_product_line_row` (lines 246-247) are fixed at 1 and 100, so a line quantity lies in `[1, 100)`. `execute` never passes other values.
- IDs and quantities are unbounded integers. ClickHouse's unsigned column widths and their wrap-around are not modelled.
- `sample(n=1)[ID]` gives a one-element pandas Series, which the source stores in the Delivery and DeliveryProductsLine records. The model stores the ID it holds.
- `sort_values` is not stable, so any row with the maximum may come first. `ArgMaxSum` and `ArgMaxDiff` pick one specific maximal row. Their contracts and the decision's contracts state only that the row is maximal.
- A LEFT JOIN row with no matching delivery or invoice gets the column defaults, 0. That is ClickHouse's behaviour without `join_use_nulls`.
- DeliveryJoin: the LEFT JOINs at lines 313-321 and 334-341 are modelled as a lookup that takes the last parent row with the line's ID (`DeliveryStorage`, `DeliveryTime`, `InvoiceStorage`). ClickHouse's `ALL LEFT JOIN` gives one joined row per matching parent, so on a table with a repeated ID the model's sums and minima differ from the server's. The two agree when parent IDs are unique (`DeliveryJoinUnique`, `InvoiceJoinUnique`), which every consistent database has (`IncreasingIdsJoinExactly`).
- The `IN` test of the product-code loop (lines 236-237) compares a String literal with the UInt64 Code column. The model compares the name with the code's decimal text (`ProductCodeTextOf`), which never matches a composed name. A server that casts the mismatch to NULL also answers 0. A server that raises a type-mismatch error would make the call fail; that failure is not modelled.
- `DataGeneratorClickhouse.execute` (lines 29-30) only raises `NotImplementedError` and is left out.
- Generator.ShopDataGenerator.constructor: requires the database to start consistent, which the empty database is (`EmptyIsConsistent`). The source accepts any database. On a database whose parent IDs are unique, each call's result is still given by its specification function, which has no such precondition. Where a parent ID repeats, the invoice call's aggregates follow the join lookup described above rather than ClickHouse's one-row-per-match join. The proofs that inserts keep the invariant need the precondition.
- Generator.ShopDataGenerator.Execute: states how much each table grows, not which rows it gains. The rows are given loop by loop by the `Run*` methods, whose results are the folds `ProvidersRun` to `InvoicesRun`.
- Concurrent writers and partial runs are not modelled, in line with the source's single-writer assumption. A failing call ends `execute` with the error, and rows already inserted stay.
