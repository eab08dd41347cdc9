/** What the external sort orders a file by, in terms of the columns of its rows:
    scripts/materialize_historical_timeframes.py. */
module CsvColumns {
  import opened PythonText
  import opened StableSorting
  import opened ExternalSort

  /** A row as it is written: its fields with commas in between. */
  function JoinFields(fields: seq<string>): string
    requires fields != []
  {
    if |fields| == 1 then fields[0] else fields[0] + "," + JoinFields(fields[1..])
  }

  ghost predicate CommaFree(fields: seq<string>) { forall i :: 0 <= i < |fields| ==> ',' !in fields[i] }

  lemma {:induction false} SplitOfPrefix(field: string, rest: string)
    requires ',' !in field
    ensures SplitFields(field + "," + rest) == [field] + SplitFields(rest)
  {
    var line := field + "," + rest;
    if field == "" {
      assert line[0] == ',' && line[1..] == rest;
    } else {
      assert line[0] == field[0] && line[1..] == field[1..] + "," + rest;
      SplitOfPrefix(field[1..], rest);
      assert field == [field[0]] + field[1..];
      assert ([field[1..]] + SplitFields(rest))[1..] == SplitFields(rest);
    }
  }

  lemma {:induction false} SplitOfField(field: string)
    requires ',' !in field
    ensures SplitFields(field) == [field]
  {
    if field != "" {
      SplitOfField(field[1..]);
      assert field == [field[0]] + field[1..];
      assert [field[1..]][1..] == [];
    }
  }

  /** Splitting a row gives back the fields it was joined from, empty ones too. */
  lemma {:induction false} SplitOfJoin(fields: seq<string>)
    requires fields != [] && CommaFree(fields)
    ensures SplitFields(JoinFields(fields)) == fields
  {
    if |fields| == 1 {
      SplitOfField(fields[0]);
    } else {
      SplitOfJoin(fields[1..]);
      SplitOfPrefix(fields[0], JoinFields(fields[1..]));
      assert fields == [fields[0]] + fields[1..];
    }
  }

  /** Every line is the join of its fields, which hold no comma. */
  lemma {:induction false} JoinOfSplit(line: string)
    ensures CommaFree(SplitFields(line)) && JoinFields(SplitFields(line)) == line
  {
    if line != "" {
      var rest := SplitFields(line[1..]);
      JoinOfSplit(line[1..]);
      assert line == [line[0]] + line[1..];
      if line[0] == ',' {
        assert ([""] + rest)[1..] == rest;
      } else {
        assert ([[line[0]] + rest[0]] + rest[1..])[1..] == rest[1..];
      }
    }
  }

  ghost predicate EndsClean(s: string) { s == "" || !IsLineEnd(s[|s| - 1]) }

  /** Only the line terminators at the end are stripped. */
  lemma {:induction false} StripEnds(s: string, end: string)
    requires EndsClean(s) && forall c :: c in end ==> IsLineEnd(c)
    ensures StripLineEnd(s + end) == s
  {
    if end == "" {
      assert s + end == s;
    } else {
      var n := |end| - 1;
      assert end[n] in end;
      assert (s + end)[..|s + end| - 1] == s + end[..n];
      StripEnds(s, end[..n]);
    }
  }

  /** The row with these columns and this terminator. */
  ghost predicate IsRow(fields: seq<string>, row: string) {
    && |fields| == 10 && CommaFree(fields) && EndsClean(JoinFields(fields))
    && exists end :: row == JoinFields(fields) + end && forall c :: c in end ==> IsLineEnd(c)
  }

  /** The sort key of a row of ten columns: the first, the fourth and the last. */
  lemma KeyOfRow(fields: seq<string>, row: string)
    requires IsRow(fields, row)
    ensures CsvSortKey(row) == SortKey(fields[0], fields[3], fields[9])
  {
    var end :| row == JoinFields(fields) + end && forall c :: c in end ==> IsLineEnd(c);
    StripEnds(JoinFields(fields), end);
    SplitOfJoin(fields);
  }

  /** By the first column, then the fourth, then the last. */
  ghost predicate InOrder(a: seq<string>, b: seq<string>)
    requires |a| == |b| == 10
  {
    && Precedes(a[0], b[0])
    && (a[0] == b[0] ==> Precedes(a[3], b[3]))
    && (a[0] == b[0] && a[3] == b[3] ==> Precedes(a[9], b[9]))
  }

  lemma KeysInOrder(a: SortKey, b: SortKey)
    requires KeyLeq(a, b)
    ensures Precedes(a.timestamp, b.timestamp)
    ensures a.timestamp == b.timestamp ==> Precedes(a.instrument, b.instrument)
    ensures a.timestamp == b.timestamp && a.instrument == b.instrument ==> Precedes(a.symbol, b.symbol)
  {
    TextLeqIff(a.timestamp, b.timestamp);
    TextLeqIff(a.instrument, b.instrument);
    TextLeqIff(a.symbol, b.symbol);
  }

  lemma ConverseKeys(a: SortKey, b: SortKey)
    requires Precedes(a.timestamp, b.timestamp)
    requires a.timestamp == b.timestamp ==> Precedes(a.instrument, b.instrument)
    requires a.timestamp == b.timestamp && a.instrument == b.instrument ==> Precedes(a.symbol, b.symbol)
    ensures KeyLeq(a, b)
  {
    TextLeqIff(a.timestamp, b.timestamp);
    TextLeqIff(a.instrument, b.instrument);
    TextLeqIff(a.symbol, b.symbol);
  }

  /** Two rows are compared by their columns: timestamp, then instrument, then symbol. */
  lemma RowsComparedIff(a: seq<string>, x: string, b: seq<string>, y: string)
    requires IsRow(a, x) && IsRow(b, y)
    ensures LineLeq(x, y) <==> InOrder(a, b)
  {
    KeyOfRow(a, x);
    KeyOfRow(b, y);
    if LineLeq(x, y) {
      KeysInOrder(CsvSortKey(x), CsvSortKey(y));
    }
    if InOrder(a, b) {
      ConverseKeys(CsvSortKey(x), CsvSortKey(y));
    }
  }

  /** The rows of the sorted file are in the order of those three columns. */
  lemma OutputInColumnOrder(text: string, size: nat, i: nat, j: nat, a: seq<string>, b: seq<string>)
    requires size >= 1 && !CutRowMovesUp(Rows(text)) && i < j < |Rows(ExternalSorted(text, size))|
    requires IsRow(a, Rows(ExternalSorted(text, size))[i]) && IsRow(b, Rows(ExternalSorted(text, size))[j])
    ensures InOrder(a, b)
  {
    ExternalSortIsStableSort(text, size);
    LineOrder();
    StableSortCorrect(LineLeq, Rows(text));
    var rows := Rows(ExternalSorted(text, size));
    RowsComparedIff(a, rows[i], b, rows[j]);
  }

  // ---------------------------------------------------------------- whole files

  /** Chunks are never empty, never larger than the size, and all but the last are exactly as large. */
  lemma {:induction false} ChunkSizes(rows: seq<string>, size: nat, i: nat)
    requires size >= 1 && i < |Chunks(rows, size)|
    ensures 0 < |Chunks(rows, size)[i]| <= size
    ensures i < |Chunks(rows, size)| - 1 ==> |Chunks(rows, size)[i]| == size
  {
    if |rows| >= size && i > 0 {
      ChunkSizes(rows[size..], size, i - 1);
    }
  }

  /** Exactly the blank lines are left out, the others stay in order. */
  lemma {:induction false} BlankLinesDropped(a: seq<string>, line: string, b: seq<string>)
    ensures NonBlank(a + [line] + b) == NonBlank(a) + (if IsBlank(line) then [] else [line]) + NonBlank(b)
  {
    var kept := if IsBlank(line) then [] else [line];
    if a == [] {
      assert a + [line] + b == [line] + b && ([line] + b)[1..] == b;
      assert NonBlank(a) + kept + NonBlank(b) == kept + NonBlank(b);
    } else {
      var first := if IsBlank(a[0]) then [] else [a[0]];
      assert (a + [line] + b)[1..] == a[1..] + [line] + b;
      BlankLinesDropped(a[1..], line, b);
      assert first + (NonBlank(a[1..]) + kept + NonBlank(b)) == first + NonBlank(a[1..]) + kept + NonBlank(b);
    }
  }

  /** A header line and rows, written to a file, come out as the header and the rows in stable order. */
  lemma SortsWrittenFile(header: string, rows: seq<string>, size: nat)
    requires size >= 1 && TerminatedTail(header)
    requires forall i :: 0 <= i < |rows| ==> Terminated(rows[i]) && !IsBlank(rows[i])
    ensures ExternalSorted(header + Join(rows), size) == header + Join(StableSort(LineLeq, rows))
  {
    var text := header + Join(rows);
    LinesOfJoin(rows);
    TerminatedLength(header, Join(rows));
    assert text[..|header|] == header && text[|header|..] == Join(rows);
    NothingBlank(rows);
    assert Rows(text) == rows;
    if rows != [] && Bare(rows[|rows| - 1]) {
      BareNotTerminated(rows[|rows| - 1]);
    }
    ExternalSortIsStableSort(text, size);
  }
}
