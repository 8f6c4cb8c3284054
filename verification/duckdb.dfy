/**
 * Reading a DuckDB QueryResult the way the TATP adapters do: successive
 * Fetch calls hand out data chunks until a null chunk; rows are numbered
 * across chunks in the order they arrive.
 */
module Duckdb {
  import opened Text
  import opened Tatp

  /** The k-th Fetch (0-based): the size of the chunk it returns, or None for the null chunk. */
  function Fetch(q: QueryResult, k: nat): (chunk: Option<nat>)
    ensures chunk.Some? <==> k < |q.chunks|
  {
    if k < |q.chunks| then Some(q.chunks[k]) else None
  }

  /**
   * `result->Fetch()->GetValue(0, 0)`: the integer in the first row of the
   * first chunk; dereferencing a null chunk is a fault.
   */
  function FirstValue(q: QueryResult): (r: Outcome<int>)
    ensures r.Ok? <==> Fetch(q, 0).Some?
    ensures r.Ok? ==> r.value == q.firstInt
    ensures r.Fail? ==> r.fault == NullChunk
  {
    if |q.chunks| == 0 then Fail(NullChunk) else Ok(q.firstInt)
  }

  /** The number of rows in the given chunks. */
  function TotalRows(chunks: seq<nat>): nat
    decreases |chunks|
  {
    if chunks == [] then 0 else TotalRows(chunks[..|chunks| - 1]) + chunks[|chunks| - 1]
  }

  /** A result has rows exactly when one of its chunks is non-empty. */
  lemma {:induction false} TotalRowsPositive(chunks: seq<nat>)
    ensures TotalRows(chunks) > 0 <==> exists k | 0 <= k < |chunks| :: chunks[k] > 0
    decreases |chunks|
  {
    if chunks != [] {
      var front := chunks[..|chunks| - 1];
      TotalRowsPositive(front);
      if exists k | 0 <= k < |front| :: front[k] > 0 {
        var k :| 0 <= k < |front| && front[k] > 0;
        assert chunks[k] > 0;
      }
      if exists k | 0 <= k < |chunks| :: chunks[k] > 0 {
        var k :| 0 <= k < |chunks| && chunks[k] > 0;
        if k < |front| {
          assert front[k] > 0;
        }
      }
    }
  }

  /**
   * The cells of one column of every row, fetching chunk after chunk until the
   * null chunk and walking each chunk's rows in order.
   */
  method CollectColumn(q: QueryResult, column: nat) returns (out: seq<Cell>)
    ensures out == ColumnCells(TotalRows(q.chunks), column)
  {
    out := [];
    var k := 0;
    var chunk := Fetch(q, k);
    while chunk.Some?
      invariant k <= |q.chunks| && chunk == Fetch(q, k)
      invariant out == ColumnCells(TotalRows(q.chunks[..k]), column)
      decreases |q.chunks| - k
    {
      var before := |out|;
      for i := 0 to chunk.value
        invariant out == ColumnCells(before + i, column)
      {
        out := out + [Cell(before + i, column)];
      }
      assert q.chunks[..k + 1][..k] == q.chunks[..k];
      k := k + 1;
      chunk := Fetch(q, k);
    }
    assert q.chunks[..k] == q.chunks;
  }

  /** Counting the rows of a result by iterating over it row by row, chunk by chunk. */
  method CountRows(q: QueryResult) returns (count: nat)
    ensures count == TotalRows(q.chunks)
  {
    count := 0;
    for k := 0 to |q.chunks|
      invariant count == TotalRows(q.chunks[..k])
    {
      for i := 0 to q.chunks[k]
        invariant count == TotalRows(q.chunks[..k]) + i
      {
        count := count + 1;
      }
      assert q.chunks[..k + 1][..k] == q.chunks[..k];
    }
    assert q.chunks[..|q.chunks|] == q.chunks;
  }
}
