/**
 * The slice of pandas the aggregation script relies on: rows keyed by column
 * name, a frame with a fresh 0..n-1 index, column assignment and
 * `DataFrame.append(..., ignore_index = True)`.
 */
module Frames {

  /**
   * A cell value the script only ever carries along: a title, a rank, a tag
   * list, a sentiment score.  It is never computed on, so it stays abstract.
   */
  type Value(==)

  /** One cell of a row. */
  datatype Cell =
    | Scalar(v: Value)                      // any value the script copies unchanged
    | Mapping(entries: map<string, Value>)  // a nested dictionary, such as a song's `sentiment`

  /**
   * A row, keyed by column name.  A column the row has no value for is simply
   * absent (pandas shows it as NaN).
   */
  type Row = map<string, Cell>

  /** A frame as it is written to a CSV file: its index column and its rows. */
  datatype Table = Table(index: seq<int>, rows: seq<Row>)

  /** The default index pandas gives a new frame: 0, 1, ..., n-1. */
  function Range(n: nat): (r: seq<int>)
    ensures |r| == n
    ensures forall k :: 0 <= k < n ==> r[k] == k
  {
    if n == 0 then [] else Range(n - 1) + [n - 1]
  }

  /** The frame with no rows, `pd.DataFrame()`. */
  const EmptyTable := Table([], [])

  /**
   * `a.append(b, ignore_index = True)`: the rows of `a` followed by the rows of
   * `b`, both unchanged, under a fresh index; the indices `a` and `b` had are
   * dropped.
   */
  function Append(a: Table, b: Table): (r: Table)
    ensures |r.rows| == |a.rows| + |b.rows|
    ensures forall k :: 0 <= k < |a.rows| ==> r.rows[k] == a.rows[k]
    ensures forall k :: 0 <= k < |b.rows| ==> r.rows[|a.rows| + k] == b.rows[k]
    ensures |r.index| == |r.rows|
    ensures forall k :: 0 <= k < |r.rows| ==> r.index[k] == k
  {
    Table(Range(|a.rows| + |b.rows|), a.rows + b.rows)
  }

  /**
   * `frame[name] = values` on a frame with `rows`: the cell `name` of every
   * row is set to the value at the row's own position (WithColumnSetsCells).
   */
  function WithColumn(rows: seq<Row>, name: string, values: seq<Value>): (r: seq<Row>)
    requires |values| == |rows|
    ensures |r| == |rows|
  {
    seq(|rows|, k requires 0 <= k < |rows| => rows[k][name := Scalar(values[k])])
  }

  /**
   * Column assignment adds (or replaces) the cell `name` of every row, holding
   * the value at the row's own position; every other cell of every row stays
   * as it was, and the rows keep their order.
   */
  lemma {:induction false} WithColumnSetsCells(rows: seq<Row>, name: string, values: seq<Value>)
    requires |values| == |rows|
    ensures forall k :: 0 <= k < |rows| ==> WithColumn(rows, name, values)[k].Keys == rows[k].Keys + {name}
    ensures forall k :: 0 <= k < |rows| ==> WithColumn(rows, name, values)[k][name] == Scalar(values[k])
    ensures forall k, c :: 0 <= k < |rows| && c in rows[k] && c != name ==>
              WithColumn(rows, name, values)[k][c] == rows[k][c]
  {
  }

  /**
   * A data frame that the script changes in place by assigning columns to it
   * (`decade` in the aggregation loop).
   */
  class Frame {
    var index: seq<int>
    var rows: seq<Row>

    /** The frame keeps the default index: one entry per row, 0..n-1. */
    ghost predicate Valid()
      reads this
    {
      index == Range(|rows|)
    }

    /** `pd.DataFrame(records)`: one row per record, in order, indexed 0..n-1. */
    constructor FromRecords(records: seq<Row>)
      ensures Valid()
      ensures rows == records
      ensures index == Range(|records|)
    {
      rows := records;
      index := Range(|records|);
    }

    /** `self[name] = values`; pandas refuses a list whose length is not the frame's. */
    method AssignColumn(name: string, values: seq<Value>)
      requires Valid()
      requires |values| == |rows|
      modifies this
      ensures Valid()
      ensures rows == WithColumn(old(rows), name, values)
      ensures index == old(index)
    {
      rows := WithColumn(rows, name, values);
    }

    /** What `to_csv` writes out: the index and the rows as they are now. */
    function Snapshot(): Table
      reads this
    {
      Table(index, rows)
    }
  }
}
