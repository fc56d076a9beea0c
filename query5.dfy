/**
 `executeQuery5`: TPC-H Query 5 over the six loaded relations. It builds the
 region, nation, supplier and customer indexes, filters the orders by date
 window and customer, runs the lineitem workers over their ranges (one after
 another here, each into its own map) and adds their maps into `results`.
 */
module Query5 {
  import opened LexOrder
  import opened Loader
  import opened Indexing
  import opened Partition
  import opened Revenue

  /** The six relations as loaded. */
  datatype Tables = Tables(
    customer: seq<Row>, orders: seq<Row>, lineitem: seq<Row>,
    supplier: seq<Row>, nation: seq<Row>, region: seq<Row>)

  /** Every row carries the columns the query reads with `.at`. */
  predicate WellFormed(t: Tables)
  {
    && HasColumns(t.region, {"r_regionkey", "r_name"})
    && HasColumns(t.nation, {"n_nationkey", "n_name", "n_regionkey"})
    && HasColumns(t.supplier, {"s_suppkey", "s_nationkey"})
    && HasColumns(t.customer, {"c_custkey", "c_nationkey"})
    && HasColumns(t.orders, {"o_orderkey", "o_custkey", "o_orderdate"})
    && HasColumns(t.lineitem, LineitemColumns)
  }

  /** `region_keys`: r_regionkey -> r_name of the regions named `rName`. */
  function RegionKeys(t: Tables, rName: string): map<string, string>
    requires WellFormed(t)
  {
    Index(t.region, ColumnEquals("r_name", rName), "r_regionkey", "r_name")
  }

  /** `nation_keys`: n_nationkey -> n_name of the nations in those regions. */
  function NationKeys(t: Tables, regionKeys: map<string, string>): map<string, string>
    requires WellFormed(t)
  {
    Index(t.nation, ColumnIn("n_regionkey", regionKeys.Keys), "n_nationkey", "n_name")
  }

  /** `supplier_nation_map`: s_suppkey -> s_nationkey of the suppliers in those nations. */
  function SupplierNations(t: Tables, nationKeys: map<string, string>): map<string, string>
    requires WellFormed(t)
  {
    Index(t.supplier, ColumnIn("s_nationkey", nationKeys.Keys), "s_suppkey", "s_nationkey")
  }

  /** `customer_nation_map`: c_custkey -> c_nationkey of the customers in those nations. */
  function CustomerNations(t: Tables, nationKeys: map<string, string>): map<string, string>
    requires WellFormed(t)
  {
    Index(t.customer, ColumnIn("c_nationkey", nationKeys.Keys), "c_custkey", "c_nationkey")
  }

  /** `valid_orders`: o_orderkey -> o_custkey of the orders dated in
      `[startDate, endDate)` whose customer is indexed. */
  function ValidOrders(t: Tables, startDate: string, endDate: string, customerNation: map<string, string>)
    : map<string, string>
    requires WellFormed(t)
  {
    Index(t.orders, DateInWindowAndColumnIn("o_orderdate", startDate, endDate, "o_custkey", customerNation.Keys),
          "o_orderkey", "o_custkey")
  }

  /** The indexes the workers probe. */
  function BuildIndexes(t: Tables, rName: string, startDate: string, endDate: string): Indexes
    requires WellFormed(t)
  {
    var nationKeys := NationKeys(t, RegionKeys(t, rName));
    var customerNation := CustomerNations(t, nationKeys);
    Indexes(nationKeys, SupplierNations(t, nationKeys), customerNation,
            ValidOrders(t, startDate, endDate, customerNation))
  }

  /** The worker's `.at` lookups cannot fail: every valid order's customer is
      in `customer_nation_map`, and every stored customer or supplier nation is
      in `nation_keys`. */
  lemma BuildIndexesConsistent(t: Tables, rName: string, startDate: string, endDate: string)
    requires WellFormed(t)
    ensures Consistent(BuildIndexes(t, rName, startDate, endDate))
  {
    var ix := BuildIndexes(t, rName, startDate, endDate);
    IndexValuesWithin(t.supplier, ColumnIn("s_nationkey", ix.nationNames.Keys), "s_suppkey", "s_nationkey",
                      ix.nationNames.Keys);
    IndexValuesWithin(t.customer, ColumnIn("c_nationkey", ix.nationNames.Keys), "c_custkey", "c_nationkey",
                      ix.nationNames.Keys);
    IndexValuesWithin(t.orders,
                      DateInWindowAndColumnIn("o_orderdate", startDate, endDate, "o_custkey", ix.customerNation.Keys),
                      "o_orderkey", "o_custkey", ix.customerNation.Keys);
  }

  /** How a run of `executeQuery5` ends. */
  datatype Outcome =
    | Completed(results: map<string, real>)
      // returned true; `results` as the caller then sees it
    | NumericFieldError
      // a worker's std::stod threw: the run aborts before the merge

  /** The query as one sequential pass over the lineitems. */
  function Evaluate(t: Tables, rName: string, startDate: string, endDate: string, parse: Parser,
                  results: map<string, real>): Outcome
    requires WellFormed(t)
  {
    if RegionKeys(t, rName) == map[] then Completed(results)
    else if NationKeys(t, RegionKeys(t, rName)) == map[] then Completed(results)
    else
      var ix := BuildIndexes(t, rName, startDate, endDate);
      BuildIndexesConsistent(t, rName, startDate, endDate);
      if !NumbersParse(t.lineitem, ix, parse) then NumericFieldError
      else Completed(Aggregate(results, t.lineitem, ix, parse))
  }

  /** Step 6: `num_threads` workers, worker i on
      `[i * chunk_size, min(i * chunk_size + chunk_size, n))` when that range is
      non-empty, each into its own slot of `thread_results`. Fails iff some
      matching lineitem has a field `std::stod` rejects. */
  method RunWorkers(lines: seq<Row>, numThreads: int, ix: Indexes, parse: Parser)
    returns (failed: bool, threadResults: seq<map<string, real>>)
    requires numThreads >= 1 && Scannable(lines, ix)
    ensures failed <==> !NumbersParse(lines, ix, parse)
    ensures !failed ==> && |threadResults| == numThreads
                        && forall k :: 0 <= k < numThreads ==>
                             threadResults[k] == ChunkAggregate(lines, ChunkSize(|lines|, numThreads), k, ix, parse)
  {
    var n := |lines|;
    threadResults := seq(numThreads, _ => map[]);
    var chunkSize := (n + numThreads - 1) / numThreads;
    ghost var cs := ChunkSize(n, numThreads);
    for i := 0 to numThreads
      invariant |threadResults| == numThreads
      invariant forall k :: 0 <= k < i ==> ChunkDone(lines, cs, k, ix, parse, threadResults[k])
      invariant forall k :: i <= k < numThreads ==> threadResults[k] == map[]
    {
      var start := i * chunkSize;
      var end := Min(start + chunkSize, n);
      assert start == ChunkStart(i, cs) && end == ChunkEnd(i, cs, n);
      if start < end {
        var partial;
        failed, partial := Worker(lines, start, end, ix, parse);
        if failed {
          UnparsedSliceFails(lines, start, end, ix, parse);
          return;
        }
        WorkerChunkDone(lines, numThreads, i, ix, parse, partial);
        threadResults := threadResults[i := partial];
      } else {
        EmptyChunkDone(lines, numThreads, i, ix, parse);
      }
    }
    ChunksDone(lines, numThreads, threadResults, ix, parse);
    failed := false;
  }

  /** Step 7: every worker's map added into `results`, in worker order. */
  method MergeResults(results: map<string, real>, threadResults: seq<map<string, real>>)
    returns (merged: map<string, real>)
    ensures merged == MergeAll(results, threadResults)
  {
    merged := results;
    for i := 0 to |threadResults|
      invariant merged == MergeAll(results, threadResults[..i])
    {
      assert threadResults[..i + 1][..i] == threadResults[..i];
      merged := MergeInto(merged, threadResults[i]);
    }
    assert threadResults[..|threadResults|] == threadResults;
  }

  /** `executeQuery5`, with the workers run one after another over their ranges.
      Whatever `numThreads` is, the outcome is the sequential pass. */
  method ExecuteQuery5(rName: string, startDate: string, endDate: string, numThreads: int, t: Tables,
                       parse: Parser, results: map<string, real>) returns (outcome: Outcome)
    requires numThreads >= 1 && WellFormed(t)
    ensures outcome == Evaluate(t, rName, startDate, endDate, parse, results)
  {
    var regionKeys := FilterRows(t.region, ColumnEquals("r_name", rName), "r_regionkey", "r_name");
    if regionKeys == map[] {
      return Completed(results);
    }
    var nationKeys := FilterRows(t.nation, ColumnIn("n_regionkey", regionKeys.Keys), "n_nationkey", "n_name");
    if nationKeys == map[] {
      return Completed(results);
    }
    var supplierNation := FilterRows(t.supplier, ColumnIn("s_nationkey", nationKeys.Keys), "s_suppkey", "s_nationkey");
    var customerNation := FilterRows(t.customer, ColumnIn("c_nationkey", nationKeys.Keys), "c_custkey", "c_nationkey");
    var validOrders := FilterRows(
      t.orders, DateInWindowAndColumnIn("o_orderdate", startDate, endDate, "o_custkey", customerNation.Keys),
      "o_orderkey", "o_custkey");
    var ix := Indexes(nationKeys, supplierNation, customerNation, validOrders);
    assert ix == BuildIndexes(t, rName, startDate, endDate);
    BuildIndexesConsistent(t, rName, startDate, endDate);

    var failed, threadResults := RunWorkers(t.lineitem, numThreads, ix, parse);
    if failed {
      return NumericFieldError;
    }
    var merged := MergeResults(results, threadResults);
    ChunkedEqualsSequential(results, t.lineitem, numThreads, threadResults, ix, parse);
    return Completed(merged);
  }

  /** `region_keys` holds exactly the keys of the regions named `rName`, each mapped to that name. */
  lemma RegionKeysExact(t: Tables, rName: string, k: string)
    requires WellFormed(t)
    ensures k in RegionKeys(t, rName)
            <==> exists i :: 0 <= i < |t.region| && t.region[i]["r_name"] == rName && t.region[i]["r_regionkey"] == k
    ensures k in RegionKeys(t, rName) ==> RegionKeys(t, rName)[k] == rName
  {
    var f := ColumnEquals("r_name", rName);
    IndexKeys(t.region, f, "r_regionkey", "r_name", k);
    IndexValuesWithin(t.region, f, "r_regionkey", "r_name", {rName});
  }

  /** `nation_keys` holds nation n iff n's region key is in `region_keys`. */
  lemma NationKeysExact(t: Tables, regionKeys: map<string, string>, k: string)
    requires WellFormed(t)
    ensures k in NationKeys(t, regionKeys)
            <==> exists i :: 0 <= i < |t.nation| && t.nation[i]["n_regionkey"] in regionKeys
                             && t.nation[i]["n_nationkey"] == k
  {
    IndexKeys(t.nation, ColumnIn("n_regionkey", regionKeys.Keys), "n_nationkey", "n_name", k);
  }

  /** `supplier_nation_map` holds exactly the suppliers whose nation is in
      `nation_keys`, each mapped to such a nation. */
  lemma SupplierNationsExact(t: Tables, nationKeys: map<string, string>, k: string)
    requires WellFormed(t)
    ensures k in SupplierNations(t, nationKeys)
            <==> exists i :: 0 <= i < |t.supplier| && t.supplier[i]["s_nationkey"] in nationKeys
                             && t.supplier[i]["s_suppkey"] == k
    ensures k in SupplierNations(t, nationKeys) ==> SupplierNations(t, nationKeys)[k] in nationKeys
  {
    var f := ColumnIn("s_nationkey", nationKeys.Keys);
    IndexKeys(t.supplier, f, "s_suppkey", "s_nationkey", k);
    IndexValuesWithin(t.supplier, f, "s_suppkey", "s_nationkey", nationKeys.Keys);
  }

  /** `customer_nation_map` holds exactly the customers whose nation is in
      `nation_keys`, each mapped to such a nation. */
  lemma CustomerNationsExact(t: Tables, nationKeys: map<string, string>, k: string)
    requires WellFormed(t)
    ensures k in CustomerNations(t, nationKeys)
            <==> exists i :: 0 <= i < |t.customer| && t.customer[i]["c_nationkey"] in nationKeys
                             && t.customer[i]["c_custkey"] == k
    ensures k in CustomerNations(t, nationKeys) ==> CustomerNations(t, nationKeys)[k] in nationKeys
  {
    var f := ColumnIn("c_nationkey", nationKeys.Keys);
    IndexKeys(t.customer, f, "c_custkey", "c_nationkey", k);
    IndexValuesWithin(t.customer, f, "c_custkey", "c_nationkey", nationKeys.Keys);
  }

  /** An order key is in `valid_orders` iff some order with that key is dated
      on or after `startDate` and strictly before `endDate` (lexicographically)
      and has an indexed customer; the stored customer is indexed. */
  lemma ValidOrdersExact(t: Tables, startDate: string, endDate: string, customerNation: map<string, string>, k: string)
    requires WellFormed(t)
    ensures k in ValidOrders(t, startDate, endDate, customerNation)
            <==> exists i :: && 0 <= i < |t.orders|
                             && (t.orders[i]["o_orderdate"] == startDate || LexLess(startDate, t.orders[i]["o_orderdate"]))
                             && LexLess(t.orders[i]["o_orderdate"], endDate)
                             && t.orders[i]["o_custkey"] in customerNation
                             && t.orders[i]["o_orderkey"] == k
    ensures k in ValidOrders(t, startDate, endDate, customerNation)
            ==> ValidOrders(t, startDate, endDate, customerNation)[k] in customerNation
  {
    var f := DateInWindowAndColumnIn("o_orderdate", startDate, endDate, "o_custkey", customerNation.Keys);
    forall i | 0 <= i < |t.orders|
      ensures LexAtLeast(t.orders[i]["o_orderdate"], startDate)
              <==> t.orders[i]["o_orderdate"] == startDate || LexLess(startDate, t.orders[i]["o_orderdate"])
    {
      LexAtLeastIff(t.orders[i]["o_orderdate"], startDate);
    }
    IndexKeys(t.orders, f, "o_orderkey", "o_custkey", k);
    IndexValuesWithin(t.orders, f, "o_orderkey", "o_custkey", customerNation.Keys);
  }

  /** The customer stored for an order key is that of the last qualifying order with the key. */
  lemma ValidOrdersLastWins(t: Tables, startDate: string, endDate: string, customerNation: map<string, string>, i: nat)
    requires WellFormed(t) && i < |t.orders|
    requires Keep(DateInWindowAndColumnIn("o_orderdate", startDate, endDate, "o_custkey", customerNation.Keys), t.orders[i])
    requires forall j :: i < j < |t.orders|
               && Keep(DateInWindowAndColumnIn("o_orderdate", startDate, endDate, "o_custkey", customerNation.Keys), t.orders[j])
               ==> t.orders[j]["o_orderkey"] != t.orders[i]["o_orderkey"]
    ensures t.orders[i]["o_orderkey"] in ValidOrders(t, startDate, endDate, customerNation)
    ensures ValidOrders(t, startDate, endDate, customerNation)[t.orders[i]["o_orderkey"]] == t.orders[i]["o_custkey"]
  {
    IndexLastWins(t.orders, DateInWindowAndColumnIn("o_orderdate", startDate, endDate, "o_custkey", customerNation.Keys),
                  "o_orderkey", "o_custkey", i);
  }

  /** The two early exits: with no region named `rName`, or no nation in such a
      region, the run returns at once and `results` is unchanged. */
  lemma EarlyExits(t: Tables, rName: string, startDate: string, endDate: string, parse: Parser,
                   results: map<string, real>)
    requires WellFormed(t)
    requires || (forall j :: 0 <= j < |t.region| ==> t.region[j]["r_name"] != rName)
             || (forall i, j :: 0 <= i < |t.nation| && 0 <= j < |t.region| && t.region[j]["r_name"] == rName
                   ==> t.nation[i]["n_regionkey"] != t.region[j]["r_regionkey"])
    ensures Evaluate(t, rName, startDate, endDate, parse, results) == Completed(results)
  {
    var regionKeys := RegionKeys(t, rName);
    if regionKeys != map[] {
      var k :| k in regionKeys;
      RegionKeysExact(t, rName, k);
      var nationKeys := NationKeys(t, regionKeys);
      if nationKeys != map[] {
        var n :| n in nationKeys;
        NationKeysExact(t, regionKeys, n);
        var i :| 0 <= i < |t.nation| && t.nation[i]["n_regionkey"] in regionKeys && t.nation[i]["n_nationkey"] == n;
        RegionKeysExact(t, rName, t.nation[i]["n_regionkey"]);
      }
    }
  }

  /** Loaded rows carry every column named in their table's schema: a
      corollary of `Loader.LoadedRowsHaveHeaders`, in the form `WellFormed` uses. */
  lemma LoadedHasColumns(headers: seq<string>, lines: seq<string>, cols: set<string>)
    requires forall c :: c in cols ==> c in headers
    ensures HasColumns(LoadRows(headers, lines), cols)
  {
    LoadedRowsHaveHeaders(headers, lines);
  }

  /** Rows produced by the loader with the six schemas carry every column the
      query reads, so none of its `.at` calls can throw. */
  lemma LoadedTablesWellFormed(customerLines: seq<string>, ordersLines: seq<string>, lineitemLines: seq<string>,
                               supplierLines: seq<string>, nationLines: seq<string>, regionLines: seq<string>)
    ensures WellFormed(Tables(LoadRows(CustomerHeaders, customerLines), LoadRows(OrdersHeaders, ordersLines),
                              LoadRows(LineitemHeaders, lineitemLines), LoadRows(SupplierHeaders, supplierLines),
                              LoadRows(NationHeaders, nationLines), LoadRows(RegionHeaders, regionLines)))
  {
    assert HasColumns(LoadRows(CustomerHeaders, customerLines), {"c_custkey", "c_nationkey"}) by {
      assert CustomerHeaders[0] == "c_custkey" && CustomerHeaders[3] == "c_nationkey";
      LoadedHasColumns(CustomerHeaders, customerLines, {"c_custkey", "c_nationkey"});
    }
    assert HasColumns(LoadRows(OrdersHeaders, ordersLines), {"o_orderkey", "o_custkey", "o_orderdate"}) by {
      assert OrdersHeaders[0] == "o_orderkey" && OrdersHeaders[1] == "o_custkey" && OrdersHeaders[4] == "o_orderdate";
      LoadedHasColumns(OrdersHeaders, ordersLines, {"o_orderkey", "o_custkey", "o_orderdate"});
    }
    assert HasColumns(LoadRows(LineitemHeaders, lineitemLines), LineitemColumns) by {
      assert LineitemHeaders[0] == "l_orderkey" && LineitemHeaders[2] == "l_suppkey";
      assert LineitemHeaders[5] == "l_extendedprice" && LineitemHeaders[6] == "l_discount";
      LoadedHasColumns(LineitemHeaders, lineitemLines, LineitemColumns);
    }
    assert HasColumns(LoadRows(SupplierHeaders, supplierLines), {"s_suppkey", "s_nationkey"}) by {
      assert SupplierHeaders[0] == "s_suppkey" && SupplierHeaders[3] == "s_nationkey";
      LoadedHasColumns(SupplierHeaders, supplierLines, {"s_suppkey", "s_nationkey"});
    }
    assert HasColumns(LoadRows(NationHeaders, nationLines), {"n_nationkey", "n_name", "n_regionkey"}) by {
      assert NationHeaders[0] == "n_nationkey" && NationHeaders[1] == "n_name" && NationHeaders[2] == "n_regionkey";
      LoadedHasColumns(NationHeaders, nationLines, {"n_nationkey", "n_name", "n_regionkey"});
    }
    assert HasColumns(LoadRows(RegionHeaders, regionLines), {"r_regionkey", "r_name"}) by {
      assert RegionHeaders[0] == "r_regionkey" && RegionHeaders[1] == "r_name";
      LoadedHasColumns(RegionHeaders, regionLines, {"r_regionkey", "r_name"});
    }
  }
}
