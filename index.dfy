/**
 The filtering passes of `executeQuery5`: each walks one relation in order
 and, for every row that passes a test, stores `row.at(keyCol) ->
 row.at(valCol)` in an index map, a later row overwriting an earlier one with
 the same key. The five passes differ only in the test, given here as a
 `Filter`.
 */
module Indexing {
  import opened LexOrder
  import opened Loader

  /** The row tests the passes use. */
  datatype Filter =
    | ColumnEquals(col: string, value: string)
      // r.at(col) == value
    | ColumnIn(col: string, keys: set<string>)
      // index.count(r.at(col))
    | DateInWindowAndColumnIn(dateCol: string, startDate: string, endDate: string, col: string, keys: set<string>)
      // r.at(dateCol) >= startDate && r.at(dateCol) < endDate && index.count(r.at(col))

  /** The columns a test reads. */
  function Columns(f: Filter): set<string>
  {
    match f
    case ColumnEquals(col, _) => {col}
    case ColumnIn(col, _) => {col}
    case DateInWindowAndColumnIn(dateCol, _, _, col, _) => {dateCol, col}
  }

  /** Every row has (at least) the columns `cols`, so `.at` on them cannot throw. */
  predicate HasColumns(rows: seq<Row>, cols: set<string>)
  {
    forall i :: 0 <= i < |rows| ==> cols <= rows[i].Keys
  }

  predicate Keep(f: Filter, r: Row)
    requires Columns(f) <= r.Keys
  {
    match f
    case ColumnEquals(col, value) => r[col] == value
    case ColumnIn(col, keys) => r[col] in keys
    case DateInWindowAndColumnIn(dateCol, startDate, endDate, col, keys) =>
      LexAtLeast(r[dateCol], startDate) && LexLess(r[dateCol], endDate) && r[col] in keys
  }

  /** The index map one pass leaves: a fold over the rows in order. */
  function Index(rows: seq<Row>, f: Filter, keyCol: string, valCol: string): map<string, string>
    requires HasColumns(rows, Columns(f) + {keyCol, valCol})
  {
    if |rows| == 0 then map[]
    else
      var n := |rows| - 1;
      var m := Index(rows[..n], f, keyCol, valCol);
      if Keep(f, rows[n]) then m[rows[n][keyCol] := rows[n][valCol]] else m
  }

  /** A key is in the index iff some row passing the test carries it. */
  lemma {:induction false} IndexKeys(rows: seq<Row>, f: Filter, keyCol: string, valCol: string, k: string)
    requires HasColumns(rows, Columns(f) + {keyCol, valCol})
    ensures k in Index(rows, f, keyCol, valCol)
            <==> exists i :: 0 <= i < |rows| && Keep(f, rows[i]) && rows[i][keyCol] == k
  {
    if |rows| > 0 {
      var n := |rows| - 1;
      IndexKeys(rows[..n], f, keyCol, valCol, k);
      if exists i :: 0 <= i < n && Keep(f, rows[..n][i]) && rows[..n][i][keyCol] == k {
        var i :| 0 <= i < n && Keep(f, rows[..n][i]) && rows[..n][i][keyCol] == k;
        assert rows[i] == rows[..n][i];
      }
      if exists i :: 0 <= i < |rows| && Keep(f, rows[i]) && rows[i][keyCol] == k {
        var i :| 0 <= i < |rows| && Keep(f, rows[i]) && rows[i][keyCol] == k;
        if i < n {
          assert rows[..n][i] == rows[i];
        }
      }
    }
  }

  /** The value stored under a key is the value column of the last passing row with that key. */
  lemma {:induction false} IndexLastWins(rows: seq<Row>, f: Filter, keyCol: string, valCol: string, i: nat)
    requires HasColumns(rows, Columns(f) + {keyCol, valCol})
    requires i < |rows| && Keep(f, rows[i])
    requires forall j :: i < j < |rows| && Keep(f, rows[j]) ==> rows[j][keyCol] != rows[i][keyCol]
    ensures rows[i][keyCol] in Index(rows, f, keyCol, valCol)
    ensures Index(rows, f, keyCol, valCol)[rows[i][keyCol]] == rows[i][valCol]
  {
    var n := |rows| - 1;
    if i < n {
      assert rows[..n][i] == rows[i];
      forall j | i < j < n && Keep(f, rows[..n][j])
        ensures rows[..n][j][keyCol] != rows[..n][i][keyCol]
      {
        assert rows[..n][j] == rows[j];
      }
      IndexLastWins(rows[..n], f, keyCol, valCol, i);
    }
  }

  /** If every passing row's value lies in `vals`, so does every stored value. */
  lemma {:induction false} IndexValuesWithin(rows: seq<Row>, f: Filter, keyCol: string, valCol: string, vals: set<string>)
    requires HasColumns(rows, Columns(f) + {keyCol, valCol})
    requires forall i :: 0 <= i < |rows| && Keep(f, rows[i]) ==> rows[i][valCol] in vals
    ensures forall k :: k in Index(rows, f, keyCol, valCol) ==> Index(rows, f, keyCol, valCol)[k] in vals
  {
    if |rows| > 0 {
      var n := |rows| - 1;
      forall i | 0 <= i < n && Keep(f, rows[..n][i])
        ensures rows[..n][i][valCol] in vals
      {
        assert rows[..n][i] == rows[i];
      }
      IndexValuesWithin(rows[..n], f, keyCol, valCol, vals);
    }
  }

  /** One filtering loop: `for (r : rows) if (test(r)) index[r.at(keyCol)] = r.at(valCol);`. */
  method FilterRows(rows: seq<Row>, f: Filter, keyCol: string, valCol: string) returns (index: map<string, string>)
    requires HasColumns(rows, Columns(f) + {keyCol, valCol})
    ensures index == Index(rows, f, keyCol, valCol)
  {
    index := map[];
    for n := 0 to |rows|
      invariant index == Index(rows[..n], f, keyCol, valCol)
    {
      assert rows[..n + 1][..n] == rows[..n];
      var r := rows[n];
      if Keep(f, r) {
        index := index[r[keyCol] := r[valCol]];
      }
    }
    assert rows[..|rows|] == rows;
  }
}
