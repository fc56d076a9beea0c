/**
 The join-aggregate stage of `executeQuery5`: the worker body that scans a
 range of lineitems, probes the order and supplier indexes, keeps the
 same-nation trades and adds `extendedprice * (1 - discount)` into its own
 nation-name -> revenue map, and the reduction that adds the per-worker maps
 into the caller's `results`. Revenue is exact (`real`).
 */
module Revenue {
  import opened Wrappers
  import opened Loader
  import opened Indexing
  import opened Partition

  /** The lookup structures the workers probe; nothing writes them while the workers run. */
  datatype Indexes = Indexes(
    nationNames: map<string, string>,    // nation_keys: n_nationkey -> n_name
    supplierNation: map<string, string>, // supplier_nation_map: s_suppkey -> s_nationkey
    customerNation: map<string, string>, // customer_nation_map: c_custkey -> c_nationkey
    validOrders: map<string, string>)    // valid_orders: o_orderkey -> o_custkey

  /** What makes the worker's two `.at` lookups safe: every order's customer is
      indexed, and every indexed customer or supplier nation is a target nation. */
  predicate Consistent(ix: Indexes)
  {
    && (forall o :: o in ix.validOrders ==> ix.validOrders[o] in ix.customerNation)
    && (forall c :: c in ix.customerNation ==> ix.customerNation[c] in ix.nationNames)
    && (forall s :: s in ix.supplierNation ==> ix.supplierNation[s] in ix.nationNames)
  }

  /** The lineitem columns the worker reads. */
  const LineitemColumns: set<string> := {"l_orderkey", "l_suppkey", "l_extendedprice", "l_discount"}

  /** `std::stod`: `None` where it throws. */
  type Parser = string -> Option<real>

  /** The worker's three tests: the order is valid, the supplier is indexed, and
      the order's customer and the supplier are in the same nation. */
  predicate Matches(l: Row, ix: Indexes)
    requires Consistent(ix) && LineitemColumns <= l.Keys
  {
    && l["l_orderkey"] in ix.validOrders
    && l["l_suppkey"] in ix.supplierNation
    && ix.customerNation[ix.validOrders[l["l_orderkey"]]] == ix.supplierNation[l["l_suppkey"]]
  }

  /** The name of the customer's nation of a matching lineitem. */
  function NationOf(l: Row, ix: Indexes): string
    requires Consistent(ix) && LineitemColumns <= l.Keys && Matches(l, ix)
  {
    ix.nationNames[ix.customerNation[ix.validOrders[l["l_orderkey"]]]]
  }

  /** Both numeric fields of a lineitem convert. */
  predicate Parses(l: Row, parse: Parser)
    requires LineitemColumns <= l.Keys
  {
    parse(l["l_extendedprice"]).Some? && parse(l["l_discount"]).Some?
  }

  /** `extended_price * (1.0 - discount)`. A matching lineitem whose fields do
      not convert never reaches this product (its worker has thrown), so the
      value chosen for it here is never observed. */
  function LineRevenue(l: Row, parse: Parser): real
    requires LineitemColumns <= l.Keys
  {
    if Parses(l, parse) then parse(l["l_extendedprice"]).value * (1.0 - parse(l["l_discount"]).value) else 0.0
  }

  /** The indexes are consistent and every lineitem has the columns the worker reads. */
  predicate Scannable(lines: seq<Row>, ix: Indexes)
  {
    Consistent(ix) && HasColumns(lines, LineitemColumns)
  }

  /** Every matching lineitem's numeric fields convert, so no worker throws. */
  predicate NumbersParse(lines: seq<Row>, ix: Indexes, parse: Parser)
    requires Scannable(lines, ix)
  {
    forall i :: 0 <= i < |lines| && Matches(lines[i], ix) ==> Parses(lines[i], parse)
  }

  /** A missing key reads as 0, as `operator[]` default-inserts it. */
  function Get(m: map<string, real>, k: string): real
  {
    if k in m then m[k] else 0.0
  }

  /** `m[k] += v`. */
  function Add(m: map<string, real>, k: string, v: real): map<string, real>
  {
    m[k := Get(m, k) + v]
  }

  /** The map a sequential pass over `lines` leaves, starting from `acc`. */
  function Aggregate(acc: map<string, real>, lines: seq<Row>, ix: Indexes, parse: Parser): map<string, real>
    requires Scannable(lines, ix)
  {
    if |lines| == 0 then acc
    else
      var n := |lines| - 1;
      var a := Aggregate(acc, lines[..n], ix, parse);
      if Matches(lines[n], ix) then Add(a, NationOf(lines[n], ix), LineRevenue(lines[n], parse)) else a
  }

  /** The revenue of one nation, summed over the matching lineitems on its own. */
  function NationRevenue(lines: seq<Row>, ix: Indexes, parse: Parser, name: string): real
    requires Scannable(lines, ix)
  {
    if |lines| == 0 then 0.0
    else
      var n := |lines| - 1;
      NationRevenue(lines[..n], ix, parse, name)
      + if Matches(lines[n], ix) && NationOf(lines[n], ix) == name then LineRevenue(lines[n], parse) else 0.0
  }

  /** `results[pair.first] += pair.second` for every pair of `b`. */
  function Merged(a: map<string, real>, b: map<string, real>): map<string, real>
  {
    map k | k in a.Keys + b.Keys :: Get(a, k) + Get(b, k)
  }

  /** Merging the per-worker maps into `acc`, in worker order. */
  function MergeAll(acc: map<string, real>, parts: seq<map<string, real>>): map<string, real>
  {
    if |parts| == 0 then acc else Merged(MergeAll(acc, parts[..|parts| - 1]), parts[|parts| - 1])
  }

  /** Some matching lineitem belongs to the nation named `name`. */
  predicate SomeLineFor(lines: seq<Row>, ix: Indexes, name: string)
    requires Scannable(lines, ix)
  {
    exists i :: 0 <= i < |lines| && Matches(lines[i], ix) && NationOf(lines[i], ix) == name
  }

  /** A nation has a matching lineitem in `lines` iff it has one before the
      last lineitem or the last lineitem is one. */
  lemma SomeLineForSnoc(lines: seq<Row>, ix: Indexes, name: string)
    requires Scannable(lines, ix) && |lines| > 0
    ensures var n := |lines| - 1;
            SomeLineFor(lines, ix, name)
            <==> SomeLineFor(lines[..n], ix, name) || (Matches(lines[n], ix) && NationOf(lines[n], ix) == name)
  {
    var n := |lines| - 1;
    if SomeLineFor(lines[..n], ix, name) {
      var i :| 0 <= i < n && Matches(lines[..n][i], ix) && NationOf(lines[..n][i], ix) == name;
      assert lines[i] == lines[..n][i];
    }
    if SomeLineFor(lines, ix, name) {
      var i :| 0 <= i < |lines| && Matches(lines[i], ix) && NationOf(lines[i], ix) == name;
      if i < n {
        assert lines[..n][i] == lines[i];
      }
    }
  }

  /** The pass adds to each nation exactly that nation's revenue. */
  lemma {:induction false} AggregateGet(
    acc: map<string, real>, lines: seq<Row>, ix: Indexes, parse: Parser, name: string)
    requires Scannable(lines, ix)
    ensures Get(Aggregate(acc, lines, ix, parse), name) == Get(acc, name) + NationRevenue(lines, ix, parse, name)
  {
    if |lines| > 0 {
      AggregateGet(acc, lines[..|lines| - 1], ix, parse, name);
    }
  }

  /** The pass creates a key only for a nation with a matching lineitem, and
      for every such nation. */
  lemma {:induction false} AggregateKeys(
    acc: map<string, real>, lines: seq<Row>, ix: Indexes, parse: Parser, name: string)
    requires Scannable(lines, ix)
    ensures name in Aggregate(acc, lines, ix, parse) <==> name in acc || SomeLineFor(lines, ix, name)
  {
    if |lines| > 0 {
      AggregateKeys(acc, lines[..|lines| - 1], ix, parse, name);
      SomeLineForSnoc(lines, ix, name);
    }
  }

  /** The pass adds to each nation exactly that nation's revenue, and creates a
      key only for a nation with at least one matching lineitem. This only
      bundles `AggregateGet` and `AggregateKeys`, with `SomeLineFor` unfolded. */
  lemma AggregateByNation(acc: map<string, real>, lines: seq<Row>, ix: Indexes, parse: Parser, name: string)
    requires Scannable(lines, ix)
    ensures Get(Aggregate(acc, lines, ix, parse), name) == Get(acc, name) + NationRevenue(lines, ix, parse, name)
    ensures name in Aggregate(acc, lines, ix, parse)
            <==> name in acc || exists i :: 0 <= i < |lines| && Matches(lines[i], ix) && NationOf(lines[i], ix) == name
  {
    AggregateGet(acc, lines, ix, parse, name);
    AggregateKeys(acc, lines, ix, parse, name);
  }

  /** Adding one amount commutes with merging. */
  lemma AddMerged(a: map<string, real>, b: map<string, real>, k: string, v: real)
    ensures Add(Merged(a, b), k, v) == Merged(a, Add(b, k, v))
  {
  }

  /** A pass from `acc` is the pass from an empty map, merged into `acc`. */
  lemma {:induction false} AggregateMerged(acc: map<string, real>, lines: seq<Row>, ix: Indexes, parse: Parser)
    requires Scannable(lines, ix)
    ensures Aggregate(acc, lines, ix, parse) == Merged(acc, Aggregate(map[], lines, ix, parse))
  {
    if |lines| == 0 {
      assert Merged(acc, map[]) == acc;
    } else {
      var n := |lines| - 1;
      AggregateMerged(acc, lines[..n], ix, parse);
      if Matches(lines[n], ix) {
        AddMerged(acc, Aggregate(map[], lines[..n], ix, parse), NationOf(lines[n], ix), LineRevenue(lines[n], parse));
      }
    }
  }

  /** Both halves of a scannable relation are scannable. */
  lemma ScannableSplit(xs: seq<Row>, ys: seq<Row>, ix: Indexes)
    requires Scannable(xs + ys, ix)
    ensures Scannable(xs, ix) && Scannable(ys, ix)
  {
    var zs := xs + ys;
    assert forall i :: 0 <= i < |xs| ==> xs[i] == zs[i];
    assert forall i :: 0 <= i < |ys| ==> ys[i] == zs[|xs| + i];
  }

  /** A pass over two runs of lineitems is the pass over the second continuing the first. */
  lemma {:induction false} AggregateAppend(
    acc: map<string, real>, xs: seq<Row>, ys: seq<Row>, ix: Indexes, parse: Parser)
    requires Scannable(xs + ys, ix)
    ensures Scannable(xs, ix) && Scannable(ys, ix)
    ensures Aggregate(acc, xs + ys, ix, parse) == Aggregate(Aggregate(acc, xs, ix, parse), ys, ix, parse)
  {
    var zs := xs + ys;
    ScannableSplit(xs, ys, ix);
    if |ys| == 0 {
      assert zs == xs;
    } else {
      var n := |ys| - 1;
      assert zs[..|zs| - 1] == xs + ys[..n] && zs[|zs| - 1] == ys[n];
      AggregateAppend(acc, xs, ys[..n], ix, parse);
    }
  }

  /** The map worker i produces on its range (an empty map for an empty range). */
  function ChunkAggregate(lines: seq<Row>, cs: nat, i: nat, ix: Indexes, parse: Parser): map<string, real>
    requires Scannable(lines, ix)
  {
    var n := |lines|;
    Aggregate(map[], lines[ChunkLo(i, cs, n)..ChunkEnd(i, cs, n)], ix, parse)
  }

  /** The pass over the first `m` lineitems. */
  function AggregatePrefix(acc: map<string, real>, lines: seq<Row>, m: nat, ix: Indexes, parse: Parser)
    : map<string, real>
    requires Scannable(lines, ix) && m <= |lines|
  {
    Aggregate(acc, lines[..m], ix, parse)
  }

  /** Merging the map of `[lo, hi)` into the pass over the first `lo`
      lineitems gives the pass over the first `hi`. */
  lemma MergeChunk(acc: map<string, real>, lines: seq<Row>, lo: nat, hi: nat, ix: Indexes, parse: Parser)
    requires Scannable(lines, ix) && lo <= hi <= |lines|
    ensures Merged(AggregatePrefix(acc, lines, lo, ix, parse), Aggregate(map[], lines[lo..hi], ix, parse))
            == AggregatePrefix(acc, lines, hi, ix, parse)
  {
    assert lines[..lo] + lines[lo..hi] == lines[..hi];
    AggregateAppend(acc, lines[..lo], lines[lo..hi], ix, parse);
    AggregateMerged(Aggregate(acc, lines[..lo], ix, parse), lines[lo..hi], ix, parse);
  }

  lemma {:induction false} MergePrefix(
    acc: map<string, real>, lines: seq<Row>, threads: int, parts: seq<map<string, real>>,
    ix: Indexes, parse: Parser, k: nat)
    requires threads >= 1 && Scannable(lines, ix) && |parts| == threads && k <= threads
    requires forall i :: 0 <= i < threads ==> parts[i] == ChunkAggregate(lines, ChunkSize(|lines|, threads), i, ix, parse)
    ensures MergeAll(acc, parts[..k])
            == AggregatePrefix(acc, lines, ChunkLo(k, ChunkSize(|lines|, threads), |lines|), ix, parse)
  {
    var n := |lines|;
    var cs := ChunkSize(n, threads);
    if k == 0 {
      assert lines[..ChunkLo(0, cs, n)] == [];
    } else {
      var i := k - 1;
      MergePrefix(acc, lines, threads, parts, ix, parse, i);
      ChunksTile(n, threads, i);
      var lo, hi := ChunkLo(i, cs, n), ChunkEnd(i, cs, n);
      assert parts[..k][..i] == parts[..i];
      MergeChunk(acc, lines, lo, hi, ix, parse);
    }
  }

  /** Central theorem: whatever the number of workers, merging their per-range
      maps into `acc` gives the same map as one sequential pass over all
      lineitems. */
  lemma ChunkedEqualsSequential(
    acc: map<string, real>, lines: seq<Row>, threads: int, parts: seq<map<string, real>>,
    ix: Indexes, parse: Parser)
    requires threads >= 1 && Scannable(lines, ix) && |parts| == threads
    requires forall i :: 0 <= i < threads ==> parts[i] == ChunkAggregate(lines, ChunkSize(|lines|, threads), i, ix, parse)
    ensures MergeAll(acc, parts) == Aggregate(acc, lines, ix, parse)
  {
    MergePrefix(acc, lines, threads, parts, ix, parse, threads);
    ChunksTile(|lines|, threads, 0);
    assert parts[..threads] == parts;
    assert lines[..|lines|] == lines;
  }

  /** One more lineitem at the end of a range: the pass adds its revenue to its
      nation iff it matches. */
  lemma AggregateSnoc(lines: seq<Row>, lo: nat, i: nat, ix: Indexes, parse: Parser)
    requires lo <= i < |lines| && Scannable(lines, ix)
    ensures Aggregate(map[], lines[lo..i + 1], ix, parse)
            == var a := Aggregate(map[], lines[lo..i], ix, parse);
               if Matches(lines[i], ix) then Add(a, NationOf(lines[i], ix), LineRevenue(lines[i], parse)) else a
  {
    var s := lines[lo..i + 1];
    assert s[..i - lo] == lines[lo..i] && s[i - lo] == lines[i];
  }

  /** One more lineitem at the end of a range converts when it does not match or its fields convert. */
  lemma NumbersParseSnoc(lines: seq<Row>, lo: nat, i: nat, ix: Indexes, parse: Parser)
    requires lo <= i < |lines| && Scannable(lines, ix) && NumbersParse(lines[lo..i], ix, parse)
    requires Matches(lines[i], ix) ==> Parses(lines[i], parse)
    ensures NumbersParse(lines[lo..i + 1], ix, parse)
  {
    var s := lines[lo..i + 1];
    forall k | 0 <= k < |s| && Matches(s[k], ix)
      ensures Parses(s[k], parse)
    {
      if k < i - lo {
        assert s[k] == lines[lo..i][k];
      }
    }
  }

  /** A matching lineitem whose numbers do not convert makes its range fail. */
  lemma UnparsedLineFails(lines: seq<Row>, lo: nat, hi: nat, i: nat, ix: Indexes, parse: Parser)
    requires lo <= i < hi <= |lines| && Scannable(lines, ix)
    requires Matches(lines[i], ix) && !Parses(lines[i], parse)
    ensures Scannable(lines[lo..hi], ix) && !NumbersParse(lines[lo..hi], ix, parse)
  {
    assert lines[lo..hi][i - lo] == lines[i];
  }

  /** A range with an unconvertible matching lineitem makes the whole relation fail. */
  lemma UnparsedSliceFails(lines: seq<Row>, lo: nat, hi: nat, ix: Indexes, parse: Parser)
    requires lo <= hi <= |lines| && Scannable(lines, ix)
    requires Scannable(lines[lo..hi], ix) && !NumbersParse(lines[lo..hi], ix, parse)
    ensures !NumbersParse(lines, ix, parse)
  {
    var k :| 0 <= k < hi - lo && Matches(lines[lo..hi][k], ix) && !Parses(lines[lo..hi][k], parse);
    assert lines[lo..hi][k] == lines[lo + k];
  }

  /** Worker i's range converts. */
  predicate ChunkReady(lines: seq<Row>, cs: nat, i: nat, ix: Indexes, parse: Parser)
  {
    var n := |lines|;
    && Scannable(lines, ix)
    && ChunkLo(i, cs, n) <= ChunkEnd(i, cs, n)
    && NumbersParse(lines[ChunkLo(i, cs, n)..ChunkEnd(i, cs, n)], ix, parse)
  }

  /** Worker i's range converts and `m` is the map the worker leaves for it. */
  predicate ChunkDone(lines: seq<Row>, cs: nat, i: nat, ix: Indexes, parse: Parser, m: map<string, real>)
  {
    ChunkReady(lines, cs, i, ix, parse) && m == ChunkAggregate(lines, cs, i, ix, parse)
  }

  /** A worker that scanned its whole non-empty range has finished it. */
  lemma WorkerChunkDone(lines: seq<Row>, threads: int, i: nat, ix: Indexes, parse: Parser, partial: map<string, real>)
    requires threads >= 1 && i < threads
    requires var cs := ChunkSize(|lines|, threads);
             && ChunkStart(i, cs) < ChunkEnd(i, cs, |lines|)
             && Scanned(lines, ChunkStart(i, cs), ChunkEnd(i, cs, |lines|), ix, parse, partial)
    ensures ChunkDone(lines, ChunkSize(|lines|, threads), i, ix, parse, partial)
  {
    ChunksTile(|lines|, threads, i);
  }

  /** A worker whose range is empty is never started; its slot keeps the empty map. */
  lemma EmptyChunkDone(lines: seq<Row>, threads: int, i: nat, ix: Indexes, parse: Parser)
    requires threads >= 1 && i < threads && Scannable(lines, ix)
    requires var cs := ChunkSize(|lines|, threads); ChunkStart(i, cs) >= ChunkEnd(i, cs, |lines|)
    ensures ChunkDone(lines, ChunkSize(|lines|, threads), i, ix, parse, map[])
  {
    var cs := ChunkSize(|lines|, threads);
    ChunksTile(|lines|, threads, i);
    assert lines[ChunkLo(i, cs, |lines|)..ChunkEnd(i, cs, |lines|)] == [];
  }

  /** A matching lineitem inside a converting range converts. */
  lemma ParsesInSlice(lines: seq<Row>, lo: nat, hi: nat, j: nat, ix: Indexes, parse: Parser)
    requires lo <= j < hi <= |lines| && Scannable(lines, ix) && NumbersParse(lines[lo..hi], ix, parse)
    requires Matches(lines[j], ix)
    ensures Parses(lines[j], parse)
  {
    assert lines[lo..hi][j - lo] == lines[j];
  }

  /** If every worker's range converts, the whole relation does: the ranges cover it. */
  lemma NumbersParseFromChunks(lines: seq<Row>, threads: int, ix: Indexes, parse: Parser)
    requires threads >= 1 && Scannable(lines, ix)
    requires forall k :: 0 <= k < threads ==> ChunkReady(lines, ChunkSize(|lines|, threads), k, ix, parse)
    ensures NumbersParse(lines, ix, parse)
  {
    var n := |lines|;
    var cs := ChunkSize(n, threads);
    forall j | 0 <= j < n && Matches(lines[j], ix)
      ensures Parses(lines[j], parse)
    {
      ChunksCover(n, threads, j);
      var k :| 0 <= k < threads && InChunk(k, cs, n, j);
      ChunksTile(n, threads, k);
      assert ChunkReady(lines, cs, k, ix, parse);
      ParsesInSlice(lines, ChunkLo(k, cs, n), ChunkEnd(k, cs, n), j, ix, parse);
    }
  }

  /** When every worker has finished its range, the relation converts and
      each slot holds that worker's `ChunkAggregate`. */
  lemma ChunksDone(lines: seq<Row>, threads: int, parts: seq<map<string, real>>, ix: Indexes, parse: Parser)
    requires threads >= 1 && Scannable(lines, ix) && |parts| == threads
    requires forall k :: 0 <= k < threads ==> ChunkDone(lines, ChunkSize(|lines|, threads), k, ix, parse, parts[k])
    ensures NumbersParse(lines, ix, parse)
    ensures forall k :: 0 <= k < threads ==> parts[k] == ChunkAggregate(lines, ChunkSize(|lines|, threads), k, ix, parse)
  {
    var cs := ChunkSize(|lines|, threads);
    forall k | 0 <= k < threads
      ensures ChunkReady(lines, cs, k, ix, parse)
    {
      assert ChunkDone(lines, cs, k, ix, parse, parts[k]);
    }
    NumbersParseFromChunks(lines, threads, ix, parse);
  }

  /** The body of the worker's loop for one lineitem `l`: the probes, the
      same-nation test, and `thread_results[thread_id][nation_name] += revenue`. */
  method ScanLine(l: Row, ix: Indexes, parse: Parser, partial: map<string, real>)
    returns (failed: bool, partial': map<string, real>)
    requires Consistent(ix) && LineitemColumns <= l.Keys
    ensures failed <==> Matches(l, ix) && !Parses(l, parse)
    ensures !failed ==> partial' == if Matches(l, ix) then Add(partial, NationOf(l, ix), LineRevenue(l, parse)) else partial
  {
    partial' := partial;
    failed := false;
    var orderKey := l["l_orderkey"];
    if orderKey in ix.validOrders {
      var suppKey := l["l_suppkey"];
      if suppKey in ix.supplierNation {
        var custKey := ix.validOrders[orderKey];
        var custNation := ix.customerNation[custKey];
        var suppNation := ix.supplierNation[suppKey];
        if custNation == suppNation {
          var price := parse(l["l_extendedprice"]);
          if price.None? {
            return true, partial';
          }
          var discount := parse(l["l_discount"]);
          if discount.None? {
            return true, partial';
          }
          var revenue := price.value * (1.0 - discount.value);
          var nationName := ix.nationNames[custNation];
          assert nationName == NationOf(l, ix) && revenue == LineRevenue(l, parse);
          partial' := Add(partial', nationName, revenue);
        }
      }
    }
  }

  /** The worker has scanned `[lo, i)` without a conversion failure, and
      `partial` is the revenue map of that range. */
  predicate Scanned(lines: seq<Row>, lo: nat, i: nat, ix: Indexes, parse: Parser, partial: map<string, real>)
  {
    && lo <= i <= |lines| && Scannable(lines, ix)
    && Scannable(lines[lo..i], ix) && NumbersParse(lines[lo..i], ix, parse)
    && partial == Aggregate(map[], lines[lo..i], ix, parse)
  }

  /** One iteration of the worker's loop keeps its invariant. */
  lemma WorkerStep(lines: seq<Row>, lo: nat, i: nat, ix: Indexes, parse: Parser,
                   partial: map<string, real>, partial': map<string, real>)
    requires i < |lines| && Scanned(lines, lo, i, ix, parse, partial)
    requires Matches(lines[i], ix) ==> Parses(lines[i], parse)
    requires partial' == if Matches(lines[i], ix) then Add(partial, NationOf(lines[i], ix), LineRevenue(lines[i], parse))
                         else partial
    ensures Scanned(lines, lo, i + 1, ix, parse, partial')
  {
    AggregateSnoc(lines, lo, i, ix, parse);
    NumbersParseSnoc(lines, lo, i, ix, parse);
  }

  /** Scanning lineitem i after `[lo, i)`: fails iff it matches and does not
      convert, and otherwise extends the scanned range by one. */
  method ScanStep(lines: seq<Row>, lo: nat, i: nat, ix: Indexes, parse: Parser, partial: map<string, real>)
    returns (failed: bool, partial': map<string, real>)
    requires i < |lines| && Scanned(lines, lo, i, ix, parse, partial)
    ensures failed <==> Matches(lines[i], ix) && !Parses(lines[i], parse)
    ensures !failed ==> Scanned(lines, lo, i + 1, ix, parse, partial')
  {
    failed, partial' := ScanLine(lines[i], ix, parse, partial);
    if !failed {
      WorkerStep(lines, lo, i, ix, parse, partial, partial');
    }
  }

  /** The worker on `[lo, hi)`: fails where `std::stod` would throw, otherwise
      returns the range's own revenue map. */
  method Worker(lines: seq<Row>, lo: nat, hi: nat, ix: Indexes, parse: Parser)
    returns (failed: bool, partial: map<string, real>)
    requires lo <= hi <= |lines| && Scannable(lines, ix)
    ensures failed ==> Scannable(lines[lo..hi], ix) && !NumbersParse(lines[lo..hi], ix, parse)
    ensures !failed ==> Scanned(lines, lo, hi, ix, parse, partial)
  {
    partial := map[];
    for i := lo to hi
      invariant Scanned(lines, lo, i, ix, parse, partial)
    {
      failed, partial := ScanStep(lines, lo, i, ix, parse, partial);
      if failed {
        UnparsedLineFails(lines, lo, hi, i, ix, parse);
        return;
      }
    }
    failed := false;
  }

  /** Adding one more pending pair of `partial` to the merge so far. */
  lemma MergeStep(results: map<string, real>, partial: map<string, real>, pending: set<string>, k: string)
    requires k in pending && pending <= partial.Keys
    ensures Add(Merged(results, partial - pending), k, partial[k]) == Merged(results, partial - (pending - {k}))
  {
    AddMerged(results, partial - pending, k, partial[k]);
    assert Add(partial - pending, k, partial[k]) == partial - (pending - {k});
  }

  /** The reduction for one worker's map: `results[k] += v` for each pair. */
  method MergeInto(results: map<string, real>, partial: map<string, real>) returns (merged: map<string, real>)
    ensures merged == Merged(results, partial)
  {
    merged := results;
    var pending := partial.Keys;
    while pending != {}
      invariant pending <= partial.Keys
      invariant merged == Merged(results, partial - pending)
      decreases |pending|
    {
      var k :| k in pending;
      MergeStep(results, partial, pending, k);
      merged := Add(merged, k, partial[k]);
      pending := pending - {k};
    }
    assert partial - {} == partial;
  }
}
