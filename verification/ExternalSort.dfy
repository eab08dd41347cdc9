/** The external merge sort of scripts/materialize_historical_timeframes.py: rows are
    cut into chunks, each chunk is sorted and written to a file of its own, and the
    files are merged through a heap. Files are texts; `readline` is modelled on text. */
module ExternalSort {
  import opened StableSorting
  import opened StableMerging
  import opened PythonText

  // ---------------------------------------------------------------- keys

  datatype SortKey = SortKey(timestamp: string, instrument: string, symbol: string)

  /** Python's order on tuples. */
  predicate KeyLeq(a: SortKey, b: SortKey) {
    if a.timestamp != b.timestamp then TextLeq(a.timestamp, b.timestamp)
    else if a.instrument != b.instrument then TextLeq(a.instrument, b.instrument)
    else TextLeq(a.symbol, b.symbol)
  }

  function StripLineEnd(line: string): string {
    if line != "" && IsLineEnd(line[|line| - 1]) then StripLineEnd(line[..|line| - 1]) else line
  }

  function SplitFields(line: string): (fields: seq<string>)
    ensures fields != []
  {
    if line == "" then [""]
    else if line[0] == ',' then [""] + SplitFields(line[1..])
    else var rest := SplitFields(line[1..]); [[line[0]] + rest[0]] + rest[1..]
  }

  function CsvSortKey(line: string): SortKey {
    var fields := SplitFields(StripLineEnd(line));
    SortKey(fields[0], if |fields| > 3 then fields[3] else "", if |fields| > 9 then fields[9] else "")
  }

  predicate LineLeq(a: string, b: string) {
    KeyLeq(CsvSortKey(a), CsvSortKey(b))
  }

  lemma LineOrder()
    ensures TotalPreorder(LineLeq)
  {
    forall a, b ensures LineLeq(a, b) || LineLeq(b, a) {
      KeyOrder(CsvSortKey(a), CsvSortKey(b), CsvSortKey(b));
    }
    forall a, b, c | LineLeq(a, b) && LineLeq(b, c) ensures LineLeq(a, c) {
      KeyOrder(CsvSortKey(a), CsvSortKey(b), CsvSortKey(c));
    }
  }

  /** The composite key order is a total order, so ties are exactly equal keys. */
  lemma KeyOrder(a: SortKey, b: SortKey, c: SortKey)
    ensures KeyLeq(a, b) || KeyLeq(b, a)
    ensures KeyLeq(a, b) && KeyLeq(b, a) ==> a == b
    ensures KeyLeq(a, b) && KeyLeq(b, c) ==> KeyLeq(a, c)
  {
    TextOrder(a.timestamp, b.timestamp, c.timestamp);
    TextOrder(a.instrument, b.instrument, c.instrument);
    TextOrder(a.symbol, b.symbol, c.symbol);
    TextOrder(b.timestamp, c.timestamp, a.timestamp);
    TextOrder(b.instrument, c.instrument, a.instrument);
  }

  // ---------------------------------------------------------------- files as text

  predicate IsLineEnd(c: char) { c == '\n' || c == '\r' }

  /** Length of the first line, with its terminator, of a file opened with newline="". */
  function LineLength(text: string): (n: nat)
    ensures n <= |text| && (text != "" ==> n > 0)
  {
    if text == "" then 0
    else if text[0] == '\n' then 1
    else if text[0] == '\r' then (if |text| > 1 && text[1] == '\n' then 2 else 1)
    else 1 + LineLength(text[1..])
  }

  function Lines(text: string): seq<string> {
    if text == "" then []
    else [text[..LineLength(text)]] + Lines(text[LineLength(text)..])
  }

  function FirstLine(text: string): string { text[..LineLength(text)] }

  function AfterLine(text: string): string { text[LineLength(text)..] }

  function Join(rows: seq<string>): string {
    if rows == [] then "" else rows[0] + Join(rows[1..])
  }

  function NonBlank(lines: seq<string>): seq<string> {
    if lines == [] then []
    else (if IsBlank(lines[0]) then [] else [lines[0]]) + NonBlank(lines[1..])
  }

  function Header(text: string): string { text[..LineLength(text)] }

  /** The data rows of a file: every line after the header that is not white space. */
  function Rows(text: string): seq<string> { NonBlank(Lines(text[LineLength(text)..])) }

  /** A non-empty body free of line ends, then one line terminator. */
  predicate Terminated(row: string) {
    |row| > 1 && !IsLineEnd(row[0]) && TerminatedTail(row[1..])
  }

  predicate TerminatedTail(s: string) {
    s != "" &&
    if s[0] == '\n' then |s| == 1
    else if s[0] == '\r' then s == "\r" || s == "\r\n"
    else TerminatedTail(s[1..])
  }

  /** A last line that the end of the file cuts off. */
  ghost predicate Bare(row: string) {
    row != "" && forall c :: c in row ==> !IsLineEnd(c)
  }

  ghost predicate StartsClean(text: string) { text == "" || !IsLineEnd(text[0]) }

  /** Rows as they can come out of a file: only the last may lack its terminator. */
  ghost predicate Readable(rows: seq<string>) {
    forall i :: 0 <= i < |rows| ==> Terminated(rows[i]) || (i == |rows| - 1 && Bare(rows[i]))
  }

  lemma {:induction false} LineShape(text: string)
    requires text != ""
    ensures var line := text[..LineLength(text)];
            IsBlank(line) || Terminated(line) || (line == text && Bare(line))
    ensures LineLength(text) < |text| ==> TerminatedTail(text[..LineLength(text)])
    ensures TerminatedTail(text[..LineLength(text)]) || (Bare(text) && LineLength(text) == |text|)
  {
    var n := LineLength(text);
    if !IsLineEnd(text[0]) {
      if |text| > 1 {
        LineShape(text[1..]);
        assert text[..n][1..] == text[1..][..n - 1];
        assert text == [text[0]] + text[1..];
      } else {
        assert LineLength(text[1..]) == 0;
      }
    }
  }

  lemma {:induction false} TerminatedLength(row: string, rest: string)
    requires TerminatedTail(row) && StartsClean(rest)
    ensures LineLength(row + rest) == |row|
  {
    if !IsLineEnd(row[0]) {
      TerminatedLength(row[1..], rest);
      assert (row + rest)[1..] == row[1..] + rest;
    }
  }

  lemma {:induction false} BareLength(row: string)
    requires Bare(row)
    ensures LineLength(row) == |row|
  {
    assert row[0] in row;
    if |row| > 1 {
      BareLength(row[1..]);
    } else {
      assert LineLength(row[1..]) == 0;
    }
  }

  lemma {:induction false} RowsAreReadable(lines: seq<string>, text: string)
    requires lines == Lines(text)
    ensures Readable(NonBlank(lines))
    ensures forall line :: line in NonBlank(lines) ==> line in lines && !IsBlank(line)
  {
    if text != "" {
      var n := LineLength(text);
      LineShape(text);
      assert lines[1..] == Lines(text[n..]);
      RowsAreReadable(lines[1..], text[n..]);
    }
  }

  /** Writing readable rows to a file and reading it line by line gives them back. */
  lemma {:induction false} LinesOfJoin(rows: seq<string>)
    requires Readable(rows)
    ensures Lines(Join(rows)) == rows && StartsClean(Join(rows))
  {
    if rows != [] {
      var row, rest := rows[0], Join(rows[1..]);
      LinesOfJoin(rows[1..]);
      if Terminated(row) {
        LinesAfterTerminated(row, rest);
        assert rows == [row] + rows[1..];
      } else {
        BareLength(row);
        assert rows == [row] && rest == "" && row + rest == row && row[..|row|] == row;
      }
    }
  }

  // ---------------------------------------------------------------- the algorithm, as functions

  /** The successive chunks of at most `size` rows. */
  function Chunks(rows: seq<string>, size: nat): seq<seq<string>>
    requires size >= 1
  {
    if rows == [] then []
    else if |rows| < size then [rows]
    else [rows[..size]] + Chunks(rows[size..], size)
  }

  function ChunkFile(chunk: seq<string>): string { Join(StableSort(LineLeq, chunk)) }

  function ChunkFiles(chunks: seq<seq<string>>): seq<string> {
    seq(|chunks|, i requires 0 <= i < |chunks| => ChunkFile(chunks[i]))
  }

  function ReadFiles(texts: seq<string>): seq<seq<string>> {
    seq(|texts|, i requires 0 <= i < |texts| => Lines(texts[i]))
  }

  /** The text that merging the remaining lines of the files writes. */
  function Merged(files: seq<seq<string>>): string {
    LineOrder();
    Join(Merge(LineLeq, files))
  }

  /** What the file holds after the external sort with the given chunk size. */
  function ExternalSorted(text: string, size: nat): string
    requires size >= 1
  {
    Header(text) + Merged(ReadFiles(ChunkFiles(Chunks(Rows(text), size))))
  }

  // ---------------------------------------------------------------- correctness

  /** The last row lacks its terminator and some row sorts above it. */
  ghost predicate CutRowMovesUp(rows: seq<string>) {
    && rows != [] && Bare(rows[|rows| - 1])
    && exists i :: 0 <= i < |rows| && !LineLeq(rows[i], rows[|rows| - 1])
  }

  lemma {:induction false} ConcatChunks(rows: seq<string>, size: nat)
    requires size >= 1
    ensures Concat(Chunks(rows, size)) == rows
  {
    if |rows| >= size {
      ConcatChunks(rows[size..], size);
      assert rows[..size] + rows[size..] == rows;
    } else if rows != [] {
      assert [rows][1..] == [];
    }
  }

  /** Only the last chunk can hold the cut row, and it is the last row there too. */
  lemma {:induction false} ChunkOfRows(rows: seq<string>, size: nat, chunk: seq<string>)
    requires size >= 1 && Readable(rows) && chunk in Chunks(rows, size)
    ensures Readable(chunk) && (CutRowMovesUp(chunk) ==> CutRowMovesUp(rows))
  {
    if |rows| >= size {
      var first, rest := rows[..size], rows[size..];
      if chunk == first {
        if size < |rows| {
          assert Terminated(rows[size - 1]);
          if Bare(first[size - 1]) {
            BareNotTerminated(first[size - 1]);
          }
        }
      } else {
        assert chunk in Chunks(rest, size);
        ChunkOfRows(rest, size, chunk);
        if CutRowMovesUp(rest) {
          CutInSuffix(rows, size);
        }
      }
    }
  }

  lemma CutInSuffix(rows: seq<string>, k: nat)
    requires k <= |rows| && CutRowMovesUp(rows[k..])
    ensures CutRowMovesUp(rows)
  {
    var rest := rows[k..];
    var i :| 0 <= i < |rest| && !LineLeq(rest[i], rest[|rest| - 1]);
    assert rows[k + i] == rest[i];
  }

  lemma {:induction false} BareNotTerminated(row: string)
    requires Bare(row)
    ensures !TerminatedTail(row) && !Terminated(row)
  {
    assert row[0] in row;
    if |row| > 1 {
      BareNotTerminated(row[1..]);
    }
  }

  lemma SortWithoutCut(rows: seq<string>)
    requires forall i :: 0 <= i < |rows| ==> Terminated(rows[i])
    ensures Readable(StableSort(LineLeq, rows))
  {
    LineOrder();
    SortMembers(LineLeq, rows);
    var sorted := StableSort(LineLeq, rows);
    forall i | 0 <= i < |sorted| ensures Terminated(sorted[i]) {
      assert sorted[i] in sorted;
      var j :| 0 <= j < |rows| && rows[j] == sorted[i];
    }
  }

  lemma SortWithCutLast(init: seq<string>, cut: string)
    requires Readable(init + [cut]) && Bare(cut)
    requires forall row :: row in init ==> LineLeq(row, cut)
    ensures Readable(StableSort(LineLeq, init + [cut]))
  {
    LineOrder();
    GreatestStaysLast(LineLeq, init, cut);
    SortMembers(LineLeq, init);
    var sorted := StableSort(LineLeq, init);
    forall i | 0 <= i < |sorted| ensures Terminated(sorted[i]) {
      assert sorted[i] in sorted;
      var j :| 0 <= j < |init| && init[j] == sorted[i];
      assert (init + [cut])[j] == init[j];
    }
  }

  lemma SortWithCutMoved(rows: seq<string>)
    requires CutRowMovesUp(rows)
    ensures !Readable(StableSort(LineLeq, rows))
  {
    LineOrder();
    var cut := rows[|rows| - 1];
    var j :| 0 <= j < |rows| && !LineLeq(rows[j], cut);
    var i := ExceededIsNotLast(LineLeq, rows, cut, rows[j]);
    BareNotTerminated(cut);
  }

  /** Sorting leaves a cut row readable exactly when it does not move up. */
  lemma SortKeepsReadable(rows: seq<string>)
    requires Readable(rows)
    ensures Readable(StableSort(LineLeq, rows)) <==> !CutRowMovesUp(rows)
  {
    if CutRowMovesUp(rows) {
      SortWithCutMoved(rows);
    } else if rows == [] || !Bare(rows[|rows| - 1]) {
      SortWithoutCut(rows);
    } else {
      assert rows == rows[..|rows| - 1] + [rows[|rows| - 1]];
      SortWithCutLast(rows[..|rows| - 1], rows[|rows| - 1]);
    }
  }

  /** Unless a cut row moves up, the sort is exactly one stable sort of all the rows. */
  lemma ExternalSortIsStableSort(text: string, size: nat)
    requires size >= 1 && !CutRowMovesUp(Rows(text))
    ensures ExternalSorted(text, size) == Header(text) + Join(StableSort(LineLeq, Rows(text)))
    ensures Rows(ExternalSorted(text, size)) == StableSort(LineLeq, Rows(text))
  {
    var rows := Rows(text);
    RowsAreReadable(Lines(text[LineLength(text)..]), text[LineLength(text)..]);
    var chunks := Chunks(rows, size);
    ConcatChunks(rows, size);
    forall chunk | chunk in chunks ensures Readable(chunk) && !CutRowMovesUp(chunk) {
      ChunkOfRows(rows, size, chunk);
    }
    ChunkFilesReadBack(chunks);
    LineOrder();
    MergeOfSortedPieces(LineLeq, chunks);
    var sorted := StableSort(LineLeq, rows);
    SortKeepsReadable(rows);
    LinesOfJoin(sorted);
    HeaderKept(text, Join(sorted));
    SortMembers(LineLeq, rows);
    NothingBlank(sorted);
  }

  lemma ChunkFilesReadBack(chunks: seq<seq<string>>)
    requires forall chunk :: chunk in chunks ==> Readable(chunk) && !CutRowMovesUp(chunk)
    ensures ReadFiles(ChunkFiles(chunks)) == SortEach(LineLeq, chunks)
  {
    forall i | 0 <= i < |chunks| ensures Lines(ChunkFile(chunks[i])) == StableSort(LineLeq, chunks[i]) {
      assert chunks[i] in chunks;
      SortKeepsReadable(chunks[i]);
      LinesOfJoin(StableSort(LineLeq, chunks[i]));
    }
  }

  lemma HeaderKept(text: string, rest: string)
    requires StartsClean(rest) && (rest != "" ==> LineLength(text) < |text|)
    ensures LineLength(Header(text) + rest) == LineLength(text)
    ensures (Header(text) + rest)[LineLength(text)..] == rest
  {
    if text != "" {
      LineShape(text);
      if TerminatedTail(Header(text)) {
        TerminatedLength(Header(text), rest);
      } else {
        assert Header(text) == text && text + rest == text;
      }
    }
  }

  lemma {:induction false} NothingBlank(rows: seq<string>)
    requires forall row :: row in rows ==> !IsBlank(row)
    ensures NonBlank(rows) == rows
  {
    if rows != [] {
      NothingBlank(rows[1..]);
    }
  }

  // ---------------------------------------------------------------- the failing family

  ghost predicate Gluable(rows: seq<string>) {
    forall row :: row in rows ==> Terminated(row) || Bare(row)
  }

  ghost predicate CutInside(rows: seq<string>) {
    exists i :: 0 <= i < |rows| - 1 && Bare(rows[i])
  }

  lemma {:induction false} BarePrefix(row: string, rest: string)
    requires Bare(row)
    ensures LineLength(row + rest) == |row| + LineLength(rest)
  {
    assert row[0] in row;
    assert (row + rest)[1..] == row[1..] + rest;
    if |row| > 1 {
      BarePrefix(row[1..], rest);
    } else {
      assert row[1..] + rest == rest;
    }
  }

  /** A cut row swallows the first line of what is written after it. */
  lemma LinesAfterBare(row: string, rest: string)
    requires Bare(row)
    ensures Lines(row + rest) == if rest == "" then [row] else [row + Lines(rest)[0]] + Lines(rest)[1..]
  {
    BarePrefix(row, rest);
    var n := LineLength(rest);
    assert (row + rest)[..|row| + n] == row + rest[..n];
    assert (row + rest)[|row| + n..] == rest[n..];
    if rest == "" {
      assert row + rest[..n] == row;
    }
  }

  lemma LinesAfterTerminated(row: string, rest: string)
    requires Terminated(row) && StartsClean(rest)
    ensures Lines(row + rest) == [row] + Lines(rest)
  {
    assert row == [row[0]] + row[1..];
    assert TerminatedTail(row);
    TerminatedLength(row, rest);
    assert (row + rest)[..|row|] == row && (row + rest)[|row|..] == rest;
  }

  /** Rows cannot multiply on their way through a file, and a cut row inside loses one. */
  lemma {:induction false} GluingBound(rows: seq<string>)
    requires Gluable(rows)
    ensures StartsClean(Join(rows)) && Gluable(Lines(Join(rows)))
    ensures |Lines(Join(rows))| <= |rows| - (if CutInside(rows) then 1 else 0)
    ensures rows != [] ==> Join(rows) != ""
  {
    if rows != [] {
      var row, rest := rows[0], Join(rows[1..]);
      GluingBound(rows[1..]);
      assert row in rows;
      if Bare(row) {
        assert row[0] in row;
        LinesAfterBare(row, rest);
        if rest != "" {
          BareThenLine(row, Lines(rest)[0]);
        }
      } else {
        LinesAfterTerminated(row, rest);
        if i :| 0 <= i < |rows| - 1 && Bare(rows[i]) {
          assert rows[1..][i - 1] == rows[i];
        }
      }
    }
  }

  lemma {:induction false} BareThenLine(row: string, line: string)
    requires Bare(row) && (Terminated(line) || Bare(line))
    ensures Terminated(row + line) || Bare(row + line)
    ensures Terminated(line) ==> TerminatedTail(row + line)
  {
    assert row[0] in row;
    assert (row + line)[1..] == row[1..] + line;
    if |row| > 1 {
      BareThenLine(row[1..], line);
    } else {
      assert row[1..] + line == line;
      if Terminated(line) {
        assert line == [line[0]] + line[1..];
      }
    }
  }

  lemma {:induction false} MergeCounts(files: seq<seq<string>>)
    requires TotalPreorder(LineLeq)
    ensures |Merge(LineLeq, files)| == TotalLines(files)
    ensures (forall i :: 0 <= i < |files| ==> Gluable(files[i])) ==> Gluable(Merge(LineLeq, files))
    decreases TotalLines(files)
  {
    var i := LeastHead(LineLeq, files);
    if i == -1 {
      NoLines(files);
    } else {
      TakingShrinks(files, i);
      MergeCounts(files[i := files[i][1..]]);
    }
  }

  lemma {:induction false} NoLines(files: seq<seq<string>>)
    requires forall i :: 0 <= i < |files| ==> files[i] == []
    ensures TotalLines(files) == 0
  {
    if files != [] {
      NoLines(files[1..]);
    }
  }

  lemma {:induction false} TotalBound(files: seq<seq<string>>, chunks: seq<seq<string>>)
    requires |files| == |chunks| && forall i :: 0 <= i < |files| ==> |files[i]| <= |chunks[i]|
    ensures TotalLines(files) <= |Concat(chunks)|
    ensures (exists i :: 0 <= i < |files| && |files[i]| < |chunks[i]|) ==> TotalLines(files) < |Concat(chunks)|
  {
    if files != [] {
      TotalBound(files[1..], chunks[1..]);
      if i :| 0 <= i < |files| && |files[i]| < |chunks[i]| {
        if i > 0 {
          assert |files[1..][i - 1]| < |chunks[1..][i - 1]|;
        }
      }
    }
  }

  lemma ReadableNotCut(rows: seq<string>)
    requires Gluable(rows) && !CutInside(rows)
    ensures Readable(rows)
  {
    forall i | 0 <= i < |rows| ensures Terminated(rows[i]) || (i == |rows| - 1 && Bare(rows[i])) {
      assert rows[i] in rows;
    }
  }

  /** Sorting a chunk whose cut row moves up leaves the cut row inside. */
  lemma SortedIsGluable(rows: seq<string>)
    requires Readable(rows)
    ensures Gluable(StableSort(LineLeq, rows)) && |StableSort(LineLeq, rows)| == |rows|
    ensures CutRowMovesUp(rows) ==> CutInside(StableSort(LineLeq, rows))
  {
    LineOrder();
    SortMembers(LineLeq, rows);
    var sorted := StableSort(LineLeq, rows);
    SortKeepsReadable(rows);
    if CutRowMovesUp(rows) && !CutInside(sorted) {
      ReadableNotCut(sorted);
    }
  }

  /** When a cut row moves up it is glued to its successor and a row is lost. */
  lemma CutRowLosesARow(text: string, size: nat)
    requires size >= 1 && CutRowMovesUp(Rows(text))
    ensures |Rows(ExternalSorted(text, size))| < |Rows(text)|
  {
    var rows := Rows(text);
    RowsAreReadable(Lines(text[LineLength(text)..]), text[LineLength(text)..]);
    var chunks := Chunks(rows, size);
    ConcatChunks(rows, size);
    LineOrder();
    var files := ReadFiles(ChunkFiles(chunks));
    forall i | 0 <= i < |chunks|
      ensures Gluable(files[i]) && |files[i]| <= |chunks[i]|
      ensures CutRowMovesUp(chunks[i]) ==> |files[i]| < |chunks[i]|
    {
      ChunkOfRows(rows, size, chunks[i]);
      SortedIsGluable(chunks[i]);
      GluingBound(StableSort(LineLeq, chunks[i]));
    }
    var merged := Merge(LineLeq, files);
    MergeCounts(files);
    TotalBound(files, chunks);
    GluingBound(merged);
    if forall chunk :: chunk in chunks ==> !CutRowMovesUp(chunk) {
      forall chunk | chunk in chunks ensures Readable(chunk) {
        ChunkOfRows(rows, size, chunk);
      }
      ChunkFilesReadBack(chunks);
      MergeOfSortedPieces(LineLeq, chunks);
      SortedIsGluable(rows);
      assert CutInside(merged);
    } else {
      var chunk :| chunk in chunks && CutRowMovesUp(chunk);
      var i :| 0 <= i < |chunks| && chunks[i] == chunk;
      assert |files[i]| < |chunks[i]|;
    }
    HeaderKept(text, Join(merged));
    NonBlankShrinks(Lines(Join(merged)));
  }

  /** A header and the rows `b` and `a`, the last without its terminator: one row is lost. */
  lemma CutRowExample()
    ensures |Rows("h\nb\na")| == 2 && |Rows(ExternalSorted("h\nb\na", 1))| < 2
  {
    var text, body := "h\nb\na", "b\na";
    assert text[1..] == "\nb\na" && LineLength("\nb\na") == 1 && LineLength(text) == 2;
    assert text[2..] == body;
    assert body[1..] == "\na" && LineLength("\na") == 1 && LineLength(body) == 2;
    assert body[..2] == "b\n" && body[2..] == "a";
    assert "a"[1..] == "" && LineLength("a") == 1 && "a"[..1] == "a";
    assert Lines("a") == ["a"] + Lines("a"[1..]) == ["a"];
    assert Lines(body) == ["b\n"] + Lines("a") == ["b\n", "a"];
    TwoRows();
    assert Rows(text) == ["b\n", "a"];
    assert !LineLeq(Rows(text)[0], "a");
    CutRowLosesARow(text, 1);
  }

  lemma TwoRows()
    ensures NonBlank(["b\n", "a"]) == ["b\n", "a"] && Bare("a") && !LineLeq("b\n", "a")
  {
    var b, a := "b\n", "a";
    assert 'b' in b && 'a' in a;
    var none: seq<string> := [];
    assert [b, a][1..] == [a] && [a][1..] == none;
    assert NonBlank([a]) == [a] + NonBlank(none);
    OneLetter('a');
    OneLetter('b');
    assert b[..1] == ['b'] && StripLineEnd(b) == StripLineEnd(b[..1]);
    assert CsvSortKey(b) == SortKey("b", "", "") && CsvSortKey(a) == SortKey("a", "", "");
  }

  lemma OneLetter(c: char)
    requires c != ',' && !IsLineEnd(c)
    ensures StripLineEnd([c]) == [c] && SplitFields([c]) == [[c]]
  {
    assert [c][1..] == "";
    var rest := SplitFields("");
    assert rest == [""] && rest[1..] == [] && [c] + "" == [c];
    assert SplitFields([c]) == [[c] + rest[0]] + rest[1..];
  }

  lemma {:induction false} NonBlankShrinks(lines: seq<string>)
    ensures |NonBlank(lines)| <= |lines|
  {
    if lines != [] {
      NonBlankShrinks(lines[1..]);
    }
  }

  /** The external sort sorts its file stably, for every chunk size, exactly when no row
      sorts above an unterminated last row. */
  lemma ExternalSortIff(text: string, size: nat)
    requires size >= 1
    ensures Rows(ExternalSorted(text, size)) == StableSort(LineLeq, Rows(text))
       <==> !CutRowMovesUp(Rows(text))
  {
    LineOrder();
    SortMembers(LineLeq, Rows(text));
    if CutRowMovesUp(Rows(text)) {
      CutRowLosesARow(text, size);
    } else {
      ExternalSortIsStableSort(text, size);
    }
  }

  /** A file whose text ends in a line terminator has no cut row. */
  lemma TerminatedFileNeverCut(text: string)
    requires text != "" && IsLineEnd(text[|text| - 1])
    ensures !CutRowMovesUp(Rows(text))
  {
    var body, rows := text[LineLength(text)..], Rows(text);
    if rows != [] {
      RowsAreReadable(Lines(body), body);
      assert rows[|rows| - 1] in rows;
      LinesEndAlike(body, rows[|rows| - 1]);
    }
  }

  lemma {:induction false} LinesEndAlike(text: string, line: string)
    requires line in Lines(text) && text != "" && IsLineEnd(text[|text| - 1])
    ensures line != "" && IsLineEnd(line[|line| - 1]) && !Bare(line)
  {
    var n := LineLength(text);
    LineShape(text);
    if line == text[..n] {
      if n == |text| {
        assert line == text;
      } else {
        TailEnds(line);
      }
      assert line[|line| - 1] in line;
    } else {
      LinesEndAlike(text[n..], line);
    }
  }

  lemma {:induction false} TailEnds(s: string)
    requires TerminatedTail(s)
    ensures IsLineEnd(s[|s| - 1])
  {
    if !IsLineEnd(s[0]) {
      TailEnds(s[1..]);
    }
  }

  /** The result does not depend on the chunk size. */
  lemma ChunkSizeIrrelevant(text: string, size: nat, size': nat)
    requires size >= 1 && size' >= 1 && !CutRowMovesUp(Rows(text))
    ensures ExternalSorted(text, size) == ExternalSorted(text, size')
  {
    ExternalSortIsStableSort(text, size);
    ExternalSortIsStableSort(text, size');
  }

  // ---------------------------------------------------------------- the algorithm, as it runs

  datatype Entry = Entry(key: SortKey, index: nat, line: string)

  predicate EntryLeq(a: Entry, b: Entry) {
    if a.key != b.key then KeyLeq(a.key, b.key)
    else if a.index != b.index then a.index < b.index
    else TextLeq(a.line, b.line)
  }

  /** `heapq.heappop`, by what it promises: a least entry leaves, the others stay. */
  method HeapPop(heap: set<Entry>) returns (least: Entry, rest: set<Entry>)
    requires heap != {}
    ensures least in heap && rest == heap - {least}
    ensures forall e :: e in heap ==> EntryLeq(least, e)
  {
    least :| least in heap;
    EntryOrder(least, least, least);
    var todo := heap - {least};
    while todo != {}
      invariant least in heap && todo <= heap
      invariant forall e :: e in heap - todo ==> EntryLeq(least, e)
      decreases todo
    {
      var e :| e in todo;
      EntryOrder(e, e, least);
      if EntryLeq(e, least) {
        forall f | f in heap - todo ensures EntryLeq(e, f) {
          EntryOrder(e, least, f);
        }
        least := e;
      }
      todo := todo - {e};
    }
    rest := heap - {least};
  }

  lemma EntryOrder(a: Entry, b: Entry, c: Entry)
    ensures EntryLeq(a, a) && (EntryLeq(a, c) || EntryLeq(c, a))
    ensures EntryLeq(a, b) && EntryLeq(b, c) ==> EntryLeq(a, c)
  {
    KeyOrder(a.key, b.key, c.key);
    KeyOrder(a.key, c.key, b.key);
    TextOrder(a.line, b.line, c.line);
    TextOrder(a.line, c.line, b.line);
    TextOrder(a.line, a.line, a.line);
  }

  ghost predicate HasEntry(heap: set<Entry>, i: int) {
    exists e :: e in heap && e.index == i
  }

  /** The entry is the next line of its file, whose unread text is the rest. */
  ghost predicate Stands(e: Entry, unread: seq<string>, files: seq<seq<string>>) {
    && e.index < |files| == |unread|
    && files[e.index] == [e.line] + Lines(unread[e.index])
    && e.key == CsvSortKey(e.line)
  }

  /** The heap holds exactly one entry per file with lines left. */
  ghost predicate Represents(heap: set<Entry>, unread: seq<string>, files: seq<seq<string>>) {
    && |unread| == |files|
    && (forall e :: e in heap ==> Stands(e, unread, files))
    && (forall i :: 0 <= i < |files| && files[i] != [] ==> HasEntry(heap, i))
  }

  lemma PoppedIsLeastHead(heap: set<Entry>, unread: seq<string>, files: seq<seq<string>>, least: Entry)
    requires Represents(heap, unread, files) && least in heap
    requires forall e :: e in heap ==> EntryLeq(least, e)
    ensures IsLeastHead(LineLeq, files, least.index)
  {
    forall j | 0 <= j < |files| && files[j] != []
      ensures LineLeq(files[least.index][0], files[j][0])
      ensures j < least.index ==> !LineLeq(files[j][0], files[least.index][0])
    {
      var e :| e in heap && e.index == j;
      assert Stands(e, unread, files);
      KeyOrder(least.key, e.key, e.key);
      KeyOrder(e.key, least.key, least.key);
    }
  }

  /** The entry pushed after one more line is read, if there was one. */
  function NextEntry(text: string, index: nat): set<Entry> {
    if text == "" then {} else {Entry(CsvSortKey(FirstLine(text)), index, FirstLine(text))}
  }

  lemma PoppedRepresents(heap: set<Entry>, unread: seq<string>, files: seq<seq<string>>, e: Entry)
    requires Represents(heap, unread, files) && e in heap
    ensures e.index < |files| && files[e.index] == [e.line] + Lines(unread[e.index])
    ensures NextEntry(unread[e.index], e.index) !! heap - {e}
    ensures Represents(heap - {e} + NextEntry(unread[e.index], e.index),
                       unread[e.index := AfterLine(unread[e.index])],
                       files[e.index := files[e.index][1..]])
  {
    assert Stands(e, unread, files);
    var i := e.index;
    var heap' := heap - {e} + NextEntry(unread[i], i);
    var unread' := unread[i := AfterLine(unread[i])];
    var files' := files[i := files[i][1..]];
    assert files'[i] == Lines(unread[i]);
    forall f | f in heap - {e} ensures f.index != i && Stands(f, unread', files') {
      assert Stands(f, unread, files);
    }
    forall j | 0 <= j < |files'| && files'[j] != [] ensures HasEntry(heap', j) {
      if j == i {
        var line := FirstLine(unread[i]);
        assert Entry(CsvSortKey(line), i, line) in heap';
      } else {
        var f :| f in heap && f.index == j;
        assert f in heap';
      }
    }
  }

  /** Writing the popped line leaves the merge of the remaining lines to be written. */
  lemma PoppedIsWritten(heap: set<Entry>, unread: seq<string>, files: seq<seq<string>>, least: Entry)
    requires Represents(heap, unread, files) && least in heap
    requires forall e :: e in heap ==> EntryLeq(least, e)
    ensures least.index < |files| && files[least.index] != []
    ensures TotalLines(files[least.index := files[least.index][1..]]) < TotalLines(files)
    ensures Merged(files) == least.line + Merged(files[least.index := files[least.index][1..]])
  {
    LineOrder();
    var i := least.index;
    PoppedIsLeastHead(heap, unread, files, least);
    LeastHeadUnique(LineLeq, files, i);
    TakingShrinks(files, i);
    assert Stands(least, unread, files);
    var rest := Merge(LineLeq, files[i := files[i][1..]]);
    assert ([least.line] + rest)[1..] == rest;
  }

  lemma OpenedRepresents(heap: set<Entry>, unread: seq<string>, files: seq<seq<string>>, text: string)
    requires Represents(heap, unread, files)
    ensures Represents(heap + NextEntry(text, |files|), unread + [AfterLine(text)], files + [Lines(text)])
  {
    var heap' := heap + NextEntry(text, |files|);
    var unread', files' := unread + [AfterLine(text)], files + [Lines(text)];
    forall e | e in heap ensures Stands(e, unread', files') {
      assert Stands(e, unread, files);
    }
    forall j | 0 <= j < |files'| && files'[j] != [] ensures HasEntry(heap', j) {
      if j == |files| {
        var line := FirstLine(text);
        assert Entry(CsvSortKey(line), j, line) in heap';
      } else {
        assert files'[j] == files[j];
        var f :| f in heap && f.index == j;
        assert f in heap';
      }
    }
  }

  /** Opens every chunk file and pushes its first line. */
  method OpenChunks(texts: seq<string>) returns (heap: set<Entry>, unread: seq<string>)
    ensures Represents(heap, unread, ReadFiles(texts))
  {
    heap, unread := {}, [];
    for index := 0 to |texts|
      invariant |unread| == index && Represents(heap, unread, ReadFiles(texts[..index]))
    {
      OpenedRepresents(heap, unread, ReadFiles(texts[..index]), texts[index]);
      assert ReadFiles(texts[..index + 1]) == ReadFiles(texts[..index]) + [Lines(texts[index])];
      heap := heap + NextEntry(texts[index], index);
      unread := unread + [AfterLine(texts[index])];
    }
    assert texts[..|texts|] == texts;
  }

  /** Pops the least line and pushes the next line of its file. */
  method PopLine(heap: set<Entry>, unread: seq<string>, ghost files: seq<seq<string>>)
    returns (line: string, heap': set<Entry>, unread': seq<string>, ghost files': seq<seq<string>>)
    requires Represents(heap, unread, files) && heap != {}
    ensures Represents(heap', unread', files') && TotalLines(files') < TotalLines(files)
    ensures Merged(files) == line + Merged(files')
  {
    var least, rest := HeapPop(heap);
    var i := least.index;
    PoppedRepresents(heap, unread, files, least);
    PoppedIsWritten(heap, unread, files, least);
    line := least.line;
    heap' := rest + NextEntry(unread[i], i);
    unread' := unread[i := AfterLine(unread[i])];
    files' := files[i := files[i][1..]];
  }

  method MergeSortedChunks(texts: seq<string>) returns (out: string)
    ensures out == Merged(ReadFiles(texts))
  {
    var heap, unread := OpenChunks(texts);
    ghost var files := ReadFiles(texts);
    ghost var left := Merged(files);
    out := "";
    while heap != {}
      invariant Represents(heap, unread, files) && left == Merged(files)
      invariant out + left == Merged(ReadFiles(texts))
      decreases TotalLines(files)
    {
      var line;
      line, heap, unread, files := PopLine(heap, unread, files);
      assert out + left == out + line + Merged(files);
      out, left := out + line, Merged(files);
    }
    NothingLeft(heap, unread, files);
  }

  lemma NothingLeft(heap: set<Entry>, unread: seq<string>, files: seq<seq<string>>)
    requires Represents(heap, unread, files) && heap == {}
    ensures Merged(files) == ""
  {
    LineOrder();
    assert forall i :: 0 <= i < |files| ==> files[i] == [];
    assert Merge(LineLeq, files) == [];
  }

  /** Reads the rows and writes them out in sorted chunk files. */
  method WriteSortedChunks(body: string, size: nat) returns (files: seq<string>)
    requires size >= 1
    ensures files == ChunkFiles(Chunks(NonBlank(Lines(body)), size))
  {
    var rest := body;
    var chunk: seq<string> := [];
    files := [];
    assert [] + NonBlank(Lines(body)) == NonBlank(Lines(body));
    while rest != ""
      invariant |chunk| < size
      invariant files + ChunkFiles(Chunks(chunk + NonBlank(Lines(rest)), size))
             == ChunkFiles(Chunks(NonBlank(Lines(body)), size))
      decreases |rest|
    {
      var line := FirstLine(rest);
      RowsStep(line, Lines(AfterLine(rest)), chunk);
      rest := AfterLine(rest);
      if !IsBlank(line) {
        files, chunk := Collect(files, chunk + [line], size, NonBlank(Lines(rest)));
      }
    }
    assert chunk + NonBlank(Lines("")) == chunk;
    if chunk != [] {
      assert ChunkFiles(Chunks(chunk, size)) == [ChunkFile(chunk)];
      files := files + [ChunkFile(chunk)];
    }
  }

  /** A full chunk is sorted and written out. */
  method Collect(files: seq<string>, chunk: seq<string>, size: nat, ghost after: seq<string>)
    returns (files': seq<string>, chunk': seq<string>)
    requires 0 < |chunk| <= size
    ensures |chunk'| < size
    ensures files' + ChunkFiles(Chunks(chunk' + after, size)) == files + ChunkFiles(Chunks(chunk + after, size))
  {
    files', chunk' := files, chunk;
    if |chunk| >= size {
      ChunkSplit(chunk, after);
      files', chunk' := files + [ChunkFile(chunk)], [];
      assert [] + after == after;
    }
  }

  /** The whole in-place sort of a generated file, chunk size as a parameter. */
  method SortCsvFile(text: string, size: nat) returns (sorted: string)
    requires size >= 1
    ensures sorted == ExternalSorted(text, size)
    ensures Rows(sorted) == StableSort(LineLeq, Rows(text)) <==> !CutRowMovesUp(Rows(text))
  {
    var n := LineLength(text);
    var files := WriteSortedChunks(text[n..], size);
    var body := MergeSortedChunks(files);
    sorted := text[..n] + body;
    ExternalSortIff(text, size);
  }

  lemma RowsStep(line: string, lines: seq<string>, chunk: seq<string>)
    ensures chunk + NonBlank([line] + lines)
         == (if IsBlank(line) then chunk else chunk + [line]) + NonBlank(lines)
  {
    assert ([line] + lines)[1..] == lines;
    assert chunk + ([line] + NonBlank(lines)) == chunk + [line] + NonBlank(lines);
    assert [] + NonBlank(lines) == NonBlank(lines);
  }

  lemma ChunkSplit(chunk: seq<string>, rest: seq<string>)
    requires chunk != []
    ensures ChunkFiles(Chunks(chunk + rest, |chunk|))
         == [ChunkFile(chunk)] + ChunkFiles(Chunks(rest, |chunk|))
  {
    assert (chunk + rest)[..|chunk|] == chunk && (chunk + rest)[|chunk|..] == rest;
  }
}
