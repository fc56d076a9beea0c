# TPC-H Query 5 — a verified model of `query5.cpp`

This project models the query logic of `tpch-query5-1/src/query5.cpp`, a
multithreaded implementation of TPC-H Query 5 (section 2.4.5 of the TPC-H
specification): revenue per nation for the suppliers and customers of one
region, over the orders of a date window.

The model covers:

- the `split` tokeniser and the per-line step of `readTable`, which turns a
  pipe-delimited line into a row mapping column names to fields;
- the four filtering passes of `executeQuery5` (region, nation, supplier,
  customer) with their two early exits;
- the order filter on a half-open date window, with lexicographic string
  comparison;
- the ceiling-division partition of the lineitem relation, the worker body,
  and the reduction of the per-worker maps into `results`.

Modules:

| file | module | contents |
|---|---|---|
| `wrappers.dfy` | `Wrappers` | `Option` |
| `lex.dfy` | `LexOrder` | `std::string` ordering: `LexLess`, `LexAtLeast` and their laws |
| `split.dfy` | `Split` | the getline loop of `split` against its specification `Tokens` |
| `loader.dfy` | `Loader` | the six schemas, `ParseLine`, `LoadRows` and the `readTable` loop |
| `index.dfy` | `Indexing` | one specification `Index` for every filtering pass, and the loop `FilterRows` |
| `partition.dfy` | `Partition` | `chunk_size` and the worker ranges |
| `revenue.dfy` | `Revenue` | the worker body, the sequential `Aggregate`, the merge, and the theorem that chunking does not change the result |
| `query5.dfy` | `Query5` | `executeQuery5` as a method, proved equal to the single-pass specification `Evaluate` |

Modelling choices:

- A row is a `map<string, string>`, as in the source. The source's `.at(col)`
  calls throw `std::out_of_range` on a missing column. The model requires the
  columns to be present (`Query5.WellFormed`). `Query5.LoadedTablesWellFormed`
  proves that every table the loader produces meets this requirement.
- `std::stod` is a parameter `parse: string -> Option<real>`, where `None`
  stands for "throws". An uncaught throw in a worker ends the run, so
  `Outcome.NumericFieldError` has no result map.
- Revenue is `real`, so the sums are exact.
- `Revenue.LineRevenue` is `price * (1 - discount)` when both fields convert,
  and `0` otherwise. A matching lineitem whose fields do not convert stops the
  run before its revenue is used, so that `0` never reaches a result.
- Each worker writes only its own map, as in the source, and the workers
  share only the read-only indexes; here they run one after another.
- The source's `std::unordered_map` indexes and `std::map` results are Dafny
  `map`s. `operator[]` on a missing key default-inserts `0.0` (`Revenue.Get`).
- Strings are compared character by character on code points, as
  `std::string::compare` does for ASCII data.

Two properties of the code that the model keeps:

- `chunk_size = ceil(n / num_threads)` (`query5.cpp:167`). So the last
  non-empty range is the short one, and workers past the end of the data get
  no range.
- Orders are filtered in one sequential loop (`query5.cpp:153-162`); only the
  lineitem scan is split across workers.

## Model

| member | source | states |
|---|---|---|
| `LexOrder.LexLessIrreflexive` | tpch-query5-1/src/query5.cpp:156 | no date is strictly before itself |
| `LexOrder.LexLessAsymmetric` | tpch-query5-1/src/query5.cpp:156 | two dates are never each strictly before the other |
| `LexOrder.LexLessTransitive` | tpch-query5-1/src/query5.cpp:156 | the string order used on dates is transitive |
| `LexOrder.LexLessTotal` | tpch-query5-1/src/query5.cpp:156 | any two strings are equal or ordered one way or the other |
| `LexOrder.LexAtLeastIff` | tpch-query5-1/src/query5.cpp:156 | `o_date >= start_date` holds iff the dates are equal or `start_date` is strictly before |
| `LexOrder.PrefixIsLexLess` | tpch-query5-1/src/query5.cpp:156 | a proper prefix sorts before the longer string |
| `Split.TokenEnd` | tpch-query5-1/src/query5.cpp:45 | one getline stops at the first delimiter: none occurs before it, and there is one at it unless the input is exhausted |
| `Split.ReadToken` | tpch-query5-1/src/query5.cpp:45 | one `getline` call reads the characters up to the next delimiter or the end, and stops there |
| `Split.Split` | tpch-query5-1/src/query5.cpp:41-49 | the vector built by the getline loop is exactly `Tokens(s, d)` |
| `Split.TokensHaveNoDelimiter` | tpch-query5-1/src/query5.cpp:41-49 | no token contains the delimiter |
| `Split.TokensEmptyIff` | tpch-query5-1/src/query5.cpp:41-49 | the token list is empty iff the input is empty |
| `Split.JoinTokens` | tpch-query5-1/src/query5.cpp:41-49 | for input not ending in the delimiter, joining the tokens with it gives the input back |
| `Split.JoinTokensTrailing` | tpch-query5-1/src/query5.cpp:41-49 | for input ending in the delimiter, the joined tokens plus that delimiter give the input back |
| `Split.TrailingDelimiterAddsNoToken` | tpch-query5-1/src/query5.cpp:41-49 | appending one delimiter adds no empty final token |
| `Loader.Zip` | tpch-query5-1/src/query5.cpp:71-74 | the row built has exactly the header names as keys |
| `Loader.ZipLastWins` | tpch-query5-1/src/query5.cpp:72-74 | a header not repeated later maps to the field at its own position |
| `Loader.ParseLineRow` | tpch-query5-1/src/query5.cpp:68-74 | a line becomes a row iff it is non-empty and has at least as many fields as headers; the row has exactly the header keys; with distinct headers, header i maps to field i, and extra fields are ignored |
| `Loader.LoadedRowsHaveHeaders` | tpch-query5-1/src/query5.cpp:67-76 | every row loaded from a table has exactly that table's header keys |
| `Loader.LoadRowsAppend` | tpch-query5-1/src/query5.cpp:67-76 | loading two runs of lines in turn gives their rows in turn |
| `Loader.ReadTable` | tpch-query5-1/src/query5.cpp:66-76 | the loop leaves the earlier rows of `data` unchanged and appends the rows of the lines, in order |
| `Loader.SchemasDistinct` | tpch-query5-1/src/query5.cpp:85-100 | each of the six schemas names every column once |
| `Indexing.IndexKeys` | tpch-query5-1/src/query5.cpp:116-162 | a key is in a filtered index iff some row passing the filter carries it |
| `Indexing.IndexLastWins` | tpch-query5-1/src/query5.cpp:116-162 | the value stored under a key comes from the last passing row with that key |
| `Indexing.IndexValuesWithin` | tpch-query5-1/src/query5.cpp:116-162 | every stored value lies in any set that holds the value column of every passing row |
| `Indexing.FilterRows` | tpch-query5-1/src/query5.cpp:116-162 | each filtering loop leaves exactly the index `Index(rows, filter, keyCol, valCol)` |
| `Query5.RegionKeysExact` | tpch-query5-1/src/query5.cpp:116-121 | `region_keys` holds exactly the keys of regions named `r_name`, each mapped to that name |
| `Query5.NationKeysExact` | tpch-query5-1/src/query5.cpp:126-131 | `nation_keys` holds nation n iff n's region key is in `region_keys` |
| `Query5.SupplierNationsExact` | tpch-query5-1/src/query5.cpp:136-141 | `supplier_nation_map` holds exactly the suppliers whose nation is in `nation_keys`, each mapped to such a nation |
| `Query5.CustomerNationsExact` | tpch-query5-1/src/query5.cpp:145-150 | `customer_nation_map` holds exactly the customers whose nation is in `nation_keys`, each mapped to such a nation |
| `Query5.ValidOrdersExact` | tpch-query5-1/src/query5.cpp:153-162 | an order key is in `valid_orders` iff some order has `start_date <= o_orderdate < end_date` and an indexed customer; the stored customer is indexed |
| `Query5.ValidOrdersLastWins` | tpch-query5-1/src/query5.cpp:153-162 | the customer stored for an order key is that of the last qualifying order with the key |
| `Query5.EarlyExits` | tpch-query5-1/src/query5.cpp:123-133 | with no region named `r_name`, or no nation in such a region, the run completes with `results` unchanged |
| `Query5.BuildIndexesConsistent` | tpch-query5-1/src/query5.cpp:182-192 | the worker's `.at` lookups cannot fail: each valid order's customer is in `customer_nation_map`, and each stored nation is in `nation_keys` |
| `Query5.LoadedHasColumns` | tpch-query5-1/src/query5.cpp:67-76 | loaded rows carry every column their schema names |
| `Query5.LoadedTablesWellFormed` | tpch-query5-1/src/query5.cpp:85-100 | tables loaded with the six schemas carry every column `executeQuery5` reads with `.at` |
| `Partition.ChunkSizeIsCeiling` | tpch-query5-1/src/query5.cpp:167 | `chunk_size` is the ceiling of `n / num_threads`: `num_threads` ranges of it reach n, with less than one thread's worth to spare |
| `Partition.ChunksCover` | tpch-query5-1/src/query5.cpp:200-206 | every lineitem index lies in the range of some worker `i < num_threads`, also when `num_threads > n` |
| `Partition.ChunksDisjoint` | tpch-query5-1/src/query5.cpp:200-206 | no index lies in the ranges of two workers |
| `Partition.ChunksTile` | tpch-query5-1/src/query5.cpp:200-206 | in worker order, each range starts where the previous one ends, from 0 to n |
| `Partition.ChunkLengths` | tpch-query5-1/src/query5.cpp:201-202 | a non-empty range holds at most `chunk_size` indices, and exactly that many unless it reaches the end |
| `Revenue.ScanLine` | tpch-query5-1/src/query5.cpp:171-196 | one lineitem fails iff it matches and a numeric field does not convert; otherwise it adds `price * (1 - discount)` to its nation's name iff it matches |
| `Revenue.NumbersParseSnoc` | tpch-query5-1/src/query5.cpp:186-189 | extending a converting range by a lineitem that does not match, or whose fields convert, keeps it converting |
| `Revenue.WorkerStep` | tpch-query5-1/src/query5.cpp:170-196 | one loop iteration that does not throw extends the scanned range by one and keeps its map equal to the range's aggregate |
| `Revenue.ScanStep` | tpch-query5-1/src/query5.cpp:170-196 | processing lineitem i throws iff it matches and a numeric field does not convert; otherwise the worker's map is the aggregate of the range up to and including i |
| `Revenue.Worker` | tpch-query5-1/src/query5.cpp:169-198 | a worker fails iff some matching lineitem in its range does not convert; otherwise its map is the sequential aggregate of its range |
| `Revenue.AggregateSnoc` | tpch-query5-1/src/query5.cpp:170-197 | one more lineitem at the end of a range adds its revenue to its nation iff it matches |
| `Revenue.UnparsedLineFails` | tpch-query5-1/src/query5.cpp:188-189 | a matching lineitem whose numbers do not convert makes its range fail |
| `Revenue.UnparsedSliceFails` | tpch-query5-1/src/query5.cpp:188-189 | a failing range makes the whole relation fail |
| `Revenue.NumbersParseFromChunks` | tpch-query5-1/src/query5.cpp:200-206 | if no worker's range fails, the whole relation converts, because the ranges cover it |
| `Revenue.WorkerChunkDone` | tpch-query5-1/src/query5.cpp:200-206 | a worker started on a non-empty range `[i * chunk_size, min(start + chunk_size, n))` that scans it to the end leaves exactly the aggregate of worker i's range |
| `Revenue.EmptyChunkDone` | tpch-query5-1/src/query5.cpp:200-206 | a worker whose range is empty is never started, and its slot keeps the empty map it was created with, which is the aggregate of its (empty) range |
| `Revenue.ChunksDone` | tpch-query5-1/src/query5.cpp:200-210 | when every worker has finished its range, no matching lineitem fails to convert and each slot of `thread_results` is that worker's aggregate |
| `Revenue.SomeLineForSnoc` | tpch-query5-1/src/query5.cpp:170-197 | a nation has a matching lineitem in a range iff it has one before the last lineitem or the last lineitem is one |
| `Revenue.AggregateGet` | tpch-query5-1/src/query5.cpp:169-198 | after a pass, each nation's total is its old value (0 if absent) plus the revenue of that nation's matching lineitems |
| `Revenue.AggregateKeys` | tpch-query5-1/src/query5.cpp:169-198 | after a pass, a name is a key iff it was one before or some matching lineitem belongs to that nation |
| `Revenue.AggregateByNation` | tpch-query5-1/src/query5.cpp:169-198 | after a pass, each nation's total is its old value plus that nation's revenue; a key is created only for a nation with a matching lineitem |
| `Revenue.AddMerged` | tpch-query5-1/src/query5.cpp:193-215 | `+=` on a worker map commutes with merging it into `results` |
| `Revenue.AggregateMerged` | tpch-query5-1/src/query5.cpp:213-217 | a pass starting from `results` equals a pass from an empty map merged into `results` |
| `Revenue.AggregateAppend` | tpch-query5-1/src/query5.cpp:169-198 | a pass over two runs of lineitems is the pass over the second continuing from the first |
| `Revenue.MergeChunk` | tpch-query5-1/src/query5.cpp:213-217 | merging the map of range `[lo, hi)` into the pass over the first `lo` lineitems gives the pass over the first `hi` |
| `Revenue.MergePrefix` | tpch-query5-1/src/query5.cpp:213-217 | merging the first k worker maps gives the pass over the lineitems before worker k's range |
| `Revenue.ChunkedEqualsSequential` | tpch-query5-1/src/query5.cpp:164-217 | for every thread count, merging the per-range maps into `results` equals one sequential pass over all lineitems |
| `Revenue.MergeStep` | tpch-query5-1/src/query5.cpp:214-216 | folding one more pair `results[k] += v` into the merge so far gives the merge with that pair included |
| `Revenue.MergeInto` | tpch-query5-1/src/query5.cpp:214-216 | adding one worker's map into `results` gives the keywise sum, a missing key counting as 0 |
| `Query5.RunWorkers` | tpch-query5-1/src/query5.cpp:165-210 | fails iff some matching lineitem does not convert; otherwise worker k's map is the aggregate of range k |
| `Query5.MergeResults` | tpch-query5-1/src/query5.cpp:213-217 | the merge loop adds every worker's map into `results`, in worker order |
| `Query5.ExecuteQuery5` | tpch-query5-1/src/query5.cpp:106-220 | whatever `num_threads >= 1` is, the outcome is the single-pass specification `Evaluate`: the early exits, the numeric-field failure, or `results` plus each nation's revenue |

The definitions these contracts are stated over, and the lines each models:

- `LexOrder.LexLess` and `LexOrder.LexAtLeast`: `std::string` `<` and `>=` on the date strings (`query5.cpp:156`).
- `Split.Tokens`: the tokens of the getline loop (`query5.cpp:41-49`).
- `Loader.ParseLine`: one line of `readTable` turned into a row, or skipped (`query5.cpp:68-74`).
- `Indexing.Index`: the result of each filtering loop (`query5.cpp:116-162`).
- `Partition.ChunkSize`, `Partition.ChunkStart` and `Partition.ChunkEnd`: `chunk_size`, `start` and `end` (`query5.cpp:167`, `query5.cpp:201-202`).
- `Revenue.Matches`, `Revenue.NationOf` and `Revenue.LineRevenue`: the probes and same-nation test, the nation name, and `extended_price * (1.0 - discount)` (`query5.cpp:172-192`).
- `Revenue.Aggregate` and `Revenue.Merged`: the sequential pass over lineitems and the keywise `+=` of the reduction (`query5.cpp:169-198`, `query5.cpp:213-217`).
- `Query5.Evaluate`: the whole of `executeQuery5` as one sequential pass (`query5.cpp:106-220`).

## Left out

- `parseArgs` (command-line handling and `std::stoi`): configuration, not query logic. The model takes `numThreads >= 1` as a precondition, the condition `parseArgs` checks.
- Opening and reading the `.tbl` files, and the `false` return when a file does not open: I/O. A table is given as its sequence of lines.
- `std::thread` creation and `join`: concurrency. Workers run sequentially, each into its own map. This gives the same result because they share only read-only indexes.
- Floating-point `double` arithmetic and the text accepted by `std::stod`: revenue is `real`, and conversion is a parameter. With doubles, the sum can depend on the thread count through rounding; with reals it cannot.
- `outputResults` (file output, 4-decimal formatting, the sort by revenue): I/O.
- `std::out_of_range` from `.at` on a missing column: excluded by the `WellFormed` precondition. `Query5.LoadedTablesWellFormed` shows that rows from the loader always meet it.
- `size_t` wrap-around in `lineitem_data.size() + num_threads - 1` (`query5.cpp:167`), `i * chunk_size` and `start + chunk_size`: integers are unbounded. The first sum wraps only once n exceeds `SIZE_MAX - num_threads + 1`, which is within about 2^31 of `SIZE_MAX` since `num_threads` is an `int`; the two later terms stay below `n + num_threads`. No `std::vector` of rows can hold that many elements (its `max_size()` is far smaller), so the wrap cannot occur.
