/** Extremes and magnitudes of real numbers. */
module Reals {

  function Max(a: real, b: real): real { if b > a then b else a }

  function Min(a: real, b: real): real { if b < a then b else a }

  function Abs(x: real): real { if x < 0.0 then -x else x }

  /** The greatest of the values: it bounds them all and is one of them. */
  function Highest(values: seq<real>): (h: real)
    requires values != []
    ensures h in values && forall x :: x in values ==> x <= h
  {
    assert values == [values[0]] + values[1..];
    if |values| == 1 then values[0] else Max(values[0], Highest(values[1..]))
  }

  /** The least of the values. */
  function Lowest(values: seq<real>): (l: real)
    requires values != []
    ensures l in values && forall x :: x in values ==> l <= x
  {
    assert values == [values[0]] + values[1..];
    if |values| == 1 then values[0] else Min(values[0], Lowest(values[1..]))
  }

  /** The greatest value of a column of the records. */
  function HighestOf<T>(value: T -> real, records: seq<T>): real
    requires records != []
  {
    Highest(Column(value, records))
  }

  function LowestOf<T>(value: T -> real, records: seq<T>): real
    requires records != []
  {
    Lowest(Column(value, records))
  }

  function Column<T>(value: T -> real, records: seq<T>): seq<real> {
    seq(|records|, i requires 0 <= i < |records| => value(records[i]))
  }

  lemma ColumnExtremes<T>(value: T -> real, records: seq<T>, i: nat)
    requires i < |records|
    ensures LowestOf(value, records) <= value(records[i]) <= HighestOf(value, records)
  {
    assert Column(value, records)[i] in Column(value, records);
  }

  lemma ColumnAttains<T>(value: T -> real, records: seq<T>) returns (i: nat, j: nat)
    requires records != []
    ensures i < |records| && value(records[i]) == HighestOf(value, records)
    ensures j < |records| && value(records[j]) == LowestOf(value, records)
  {
    var column := Column(value, records);
    i :| 0 <= i < |column| && column[i] == Highest(column);
    j :| 0 <= j < |column| && column[j] == Lowest(column);
  }

  lemma ColumnExtremesConcat<T>(value: T -> real, a: seq<T>, b: seq<T>)
    requires a != [] && b != []
    ensures HighestOf(value, a + b) == Max(HighestOf(value, a), HighestOf(value, b))
    ensures LowestOf(value, a + b) == Min(LowestOf(value, a), LowestOf(value, b))
  {
    assert Column(value, a + b) == Column(value, a) + Column(value, b);
    ExtremesConcat(Column(value, a), Column(value, b));
  }

  lemma ColumnExtremesOfOne<T>(value: T -> real, record: T)
    ensures HighestOf(value, [record]) == value(record) == LowestOf(value, [record])
  {
    assert Column(value, [record]) == [value(record)];
  }

  lemma ExtremesConcat(a: seq<real>, b: seq<real>)
    requires a != [] && b != []
    ensures Highest(a + b) == Max(Highest(a), Highest(b))
    ensures Lowest(a + b) == Min(Lowest(a), Lowest(b))
  {
    assert Highest(a) in a + b && Highest(b) in a + b;
    assert Lowest(a) in a + b && Lowest(b) in a + b;
  }
}
