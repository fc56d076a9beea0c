/**
 The per-line step of `readTable` in `readTPCHData`: a line of a pipe-delimited
 `.tbl` file becomes a row mapping each header of the table's schema to the
 field at the same position, unless the line is empty or has fewer fields than
 there are headers, in which case it is skipped. Extra fields are ignored.
 Opening and reading the files is not modelled: a table is given as its
 sequence of lines.
 */
module Loader {
  import opened Wrappers
  import Split

  /** A loaded record: column name to raw field text. */
  type Row = map<string, string>

  const Delimiter: char := '|'

  const CustomerHeaders: seq<string> :=
    ["c_custkey", "c_name", "c_address", "c_nationkey", "c_phone", "c_acctbal", "c_mktsegment", "c_comment"]
  const OrdersHeaders: seq<string> :=
    ["o_orderkey", "o_custkey", "o_orderstatus", "o_totalprice", "o_orderdate", "o_orderpriority", "o_clerk",
     "o_shippriority", "o_comment"]
  const LineitemHeaders: seq<string> :=
    ["l_orderkey", "l_partkey", "l_suppkey", "l_linenumber", "l_quantity", "l_extendedprice", "l_discount", "l_tax",
     "l_returnflag", "l_linestatus", "l_shipdate", "l_commitdate", "l_receiptdate", "l_shipinstruct", "l_shipmode",
     "l_comment"]
  const SupplierHeaders: seq<string> :=
    ["s_suppkey", "s_name", "s_address", "s_nationkey", "s_phone", "s_acctbal", "s_comment"]
  const NationHeaders: seq<string> := ["n_nationkey", "n_name", "n_regionkey", "n_comment"]
  const RegionHeaders: seq<string> := ["r_regionkey", "r_name", "r_comment"]

  predicate Distinct(hs: seq<string>)
  {
    forall i, j :: 0 <= i < j < |hs| ==> hs[i] != hs[j]
  }

  /** The row left by `row[headers[i]] = values[i]` for i = 0, 1, ... in order. */
  function Zip(headers: seq<string>, values: seq<string>): (row: Row)
    requires |headers| <= |values|
    ensures row.Keys == set h | h in headers
  {
    if |headers| == 0 then map[]
    else
      var n := |headers| - 1;
      assert forall h :: h in headers <==> h in headers[..n] || h == headers[n];
      Zip(headers[..n], values)[headers[n] := values[n]]
  }

  /** A header that does not occur again later maps to the field at its own position. */
  lemma {:induction false} ZipLastWins(headers: seq<string>, values: seq<string>, i: nat)
    requires |headers| <= |values| && i < |headers|
    requires forall j :: i < j < |headers| ==> headers[j] != headers[i]
    ensures Zip(headers, values)[headers[i]] == values[i]
  {
    var n := |headers| - 1;
    if i < n {
      ZipLastWins(headers[..n], values, i);
    }
  }

  /** The row one line of a table gives, if any. */
  function ParseLine(headers: seq<string>, line: string): Option<Row>
  {
    if line == [] then None
    else
      var values := Split.Tokens(line, Delimiter);
      if |values| < |headers| then None else Some(Zip(headers, values))
  }

  /** A line gives a row iff it is non-empty and has at least as many fields as
      there are headers; the row has exactly the header keys, and with distinct
      headers header i holds field i. */
  lemma ParseLineRow(headers: seq<string>, line: string)
    ensures ParseLine(headers, line).Some?
            <==> line != [] && |Split.Tokens(line, Delimiter)| >= |headers|
    ensures ParseLine(headers, line).Some? ==>
              var row := ParseLine(headers, line).value;
              && row.Keys == (set h | h in headers)
              && (Distinct(headers) ==>
                    forall i :: 0 <= i < |headers| ==> row[headers[i]] == Split.Tokens(line, Delimiter)[i])
  {
    if ParseLine(headers, line).Some? && Distinct(headers) {
      forall i | 0 <= i < |headers|
        ensures ParseLine(headers, line).value[headers[i]] == Split.Tokens(line, Delimiter)[i]
      {
        ZipLastWins(headers, Split.Tokens(line, Delimiter), i);
      }
    }
  }

  /** The rows a whole table file gives, in line order. */
  function LoadRows(headers: seq<string>, lines: seq<string>): seq<Row>
  {
    if |lines| == 0 then []
    else
      LoadRows(headers, lines[..|lines| - 1])
      + match ParseLine(headers, lines[|lines| - 1])
        case Some(row) => [row]
        case None => []
  }

  /** Every loaded row has exactly the table's header keys. */
  lemma {:induction false} LoadedRowsHaveHeaders(headers: seq<string>, lines: seq<string>)
    ensures forall i :: 0 <= i < |LoadRows(headers, lines)| ==>
              LoadRows(headers, lines)[i].Keys == set h | h in headers
  {
    if |lines| > 0 {
      LoadedRowsHaveHeaders(headers, lines[..|lines| - 1]);
      ParseLineRow(headers, lines[|lines| - 1]);
    }
  }

  /** Loading two runs of lines one after the other gives their rows one after the other. */
  lemma {:induction false} LoadRowsAppend(headers: seq<string>, xs: seq<string>, ys: seq<string>)
    ensures LoadRows(headers, xs + ys) == LoadRows(headers, xs) + LoadRows(headers, ys)
  {
    if |ys| > 0 {
      var n := |ys| - 1;
      assert (xs + ys)[..|xs + ys| - 1] == xs + ys[..n];
      LoadRowsAppend(headers, xs, ys[..n]);
    } else {
      assert xs + ys == xs;
    }
  }

  /** The `while (getline(file, line))` loop of `readTable`: appends the rows of
      `lines` to `data`, leaving the earlier rows as they were. */
  method ReadTable(headers: seq<string>, lines: seq<string>, data: seq<Row>) returns (data': seq<Row>)
    ensures data' == data + LoadRows(headers, lines)
  {
    data' := data;
    for n := 0 to |lines|
      invariant data' == data + LoadRows(headers, lines[..n])
    {
      assert lines[..n + 1][..n] == lines[..n];
      var line := lines[n];
      if line == [] {
        continue;
      }
      var values := Split.Split(line, Delimiter);
      if |values| < |headers| {
        continue;
      }
      var row: Row := map[];
      for i := 0 to |headers|
        invariant row == Zip(headers[..i], values)
      {
        assert headers[..i + 1][..i] == headers[..i];
        row := row[headers[i] := values[i]];
      }
      assert headers[..|headers|] == headers;
      data' := data' + [row];
    }
    assert lines[..|lines|] == lines;
  }

  /** The six schemas name each column once. */
  lemma SchemasDistinct()
    ensures Distinct(CustomerHeaders) && Distinct(OrdersHeaders) && Distinct(LineitemHeaders)
    ensures Distinct(SupplierHeaders) && Distinct(NationHeaders) && Distinct(RegionHeaders)
  {
  }
}
