/** The part of a pandas DataFrame the ETL uses: named columns of equal
    length, read by name and replaced in place. */
module Frames {
  import opened PyValues

  /** The cell a record gives for a column: a key the record lacks is NaN. */
  function Cell(r: Record, column: string): Value {
    if column in r then r[column] else Null
  }

  /** The columns of `pd.DataFrame(records)`: every key of some record. */
  function ColumnNames(records: seq<Record>): set<string> {
    set i, c | 0 <= i < |records| && c in records[i] :: c
  }

  /** The cells of one column, one per record. */
  function Cells(records: seq<Record>, column: string): seq<Value> {
    seq(|records|, i requires 0 <= i < |records| => Cell(records[i], column))
  }

  /** The table `pd.DataFrame(records)` builds: one row per record, in order. */
  function Table(records: seq<Record>): map<string, seq<Value>> {
    map c | c in ColumnNames(records) :: Cells(records, c)
  }

  /** A column of `n` missing cells. */
  function Nulls(n: nat): seq<Value> {
    seq(n, _ => Null)
  }

  /** The table of two batches of records, one after the other, is the first
      batch's table stacked on the second's: its columns are those of either,
      and a column one batch lacks is missing in that batch's rows. Fetched
      pages therefore give one row per record, page by page, in order. */
  lemma TableConcat(a: seq<Record>, b: seq<Record>)
    ensures Table(a + b).Keys == Table(a).Keys + Table(b).Keys
    ensures forall c :: c in Table(a + b) ==>
      Table(a + b)[c] == (if c in Table(a) then Table(a)[c] else Nulls(|a|))
                       + (if c in Table(b) then Table(b)[c] else Nulls(|b|))
  {
    var ab := a + b;
    forall c | c in ColumnNames(ab)
      ensures c in ColumnNames(a) || c in ColumnNames(b)
    {
      var i :| 0 <= i < |ab| && c in ab[i];
      if i < |a| { assert c in a[i]; } else { assert c in b[i - |a|]; }
    }
    forall c | c in ColumnNames(a)
      ensures c in ColumnNames(ab)
    {
      var i :| 0 <= i < |a| && c in a[i];
      assert c in ab[i];
    }
    forall c | c in ColumnNames(b)
      ensures c in ColumnNames(ab)
    {
      var i :| 0 <= i < |b| && c in b[i];
      assert c in ab[|a| + i];
    }
    forall c | c in ColumnNames(ab)
      ensures Cells(ab, c) == (if c in ColumnNames(a) then Cells(a, c) else Nulls(|a|))
                            + (if c in ColumnNames(b) then Cells(b, c) else Nulls(|b|))
    {
      forall i | 0 <= i < |a| && c !in ColumnNames(a)
        ensures c !in a[i]
      {
      }
      forall i | 0 <= i < |b| && c !in ColumnNames(b)
        ensures c !in b[i]
      {
      }
    }
  }

  class Frame {
    var columns: map<string, seq<Value>>
    var rows: nat

    /** Every column has one cell per row. */
    ghost predicate Valid()
      reads this
    {
      forall c :: c in columns ==> |columns[c]| == rows
    }

    /** `pd.DataFrame(records)`. */
    constructor (records: seq<Record>)
      ensures Valid()
      ensures rows == |records| && columns == Table(records)
    {
      rows := |records|;
      columns := Table(records);
    }

    /** `df[name]`: the column, or a KeyError when there is none. */
    function Column(name: string): Outcome<seq<Value>>
      reads this
    {
      if name in columns then Ok(columns[name]) else Raised(KeyError(name))
    }

    /** `df[name] = values`: replaces the column, or adds it. */
    method SetColumn(name: string, values: seq<Value>)
      requires Valid() && |values| == rows
      modifies this
      ensures Valid() && rows == old(rows)
      ensures columns == old(columns)[name := values]
    {
      columns := columns[name := values];
    }
  }
}
