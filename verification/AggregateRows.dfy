/** What the rows of an aggregate are, scripts/verify_rust_materialize_golden.py, in terms of the rows that fall in a
    bucket. */
module AggregateRows {
  import opened Reals
  import opened Sequences
  import opened PythonText
  import opened StableSorting
  import opened RollUp

  /** The position is that of the earliest row, the first of those in input order. */
  ghost predicate IsEarliest(rows: seq<SourceRow>, i: nat) {
    && i < |rows| && (forall k :: 0 <= k < |rows| ==> rows[i].ts <= rows[k].ts)
    && (forall k :: 0 <= k < i ==> rows[i].ts < rows[k].ts)
  }

  /** The position is that of the latest row, the last of those in input order. */
  ghost predicate IsLatest(rows: seq<SourceRow>, i: nat) {
    && i < |rows| && (forall k :: 0 <= k < |rows| ==> rows[k].ts <= rows[i].ts)
    && (forall k :: i < k < |rows| ==> rows[k].ts < rows[i].ts)
  }

  ghost function TotalVolume(rows: seq<SourceRow>): real {
    if rows == [] then 0.0 else TotalVolume(rows[..|rows| - 1]) + Last(rows).volume
  }

  /** The row sums the group up: the open and symbol of its earliest row, the close of its latest, the extremes, the
      total volume, and the key it is filed under. */
  ghost predicate SumsUp(key: Key, group: seq<SourceRow>, row: SourceRow) {
    && row.ts == key.start && row.instrument == key.instrument && row.rtype == "" && row.publisher == ""
    && (exists i: nat :: IsEarliest(group, i) && row.open == group[i].open && row.symbol == group[i].symbol)
    && (exists i: nat :: IsLatest(group, i) && row.close == group[i].close)
    && (forall i :: 0 <= i < |group| ==> row.low <= group[i].low && group[i].high <= row.high)
    && (exists i :: 0 <= i < |group| && group[i].high == row.high)
    && (exists i :: 0 <= i < |group| && group[i].low == row.low)
    && row.volume == TotalVolume(group)
  }

  /** A group holds exactly the rows of its key, in input order. */
  lemma {:induction false} GroupFilters(bucket: Bucketing, a: seq<SourceRow>, r: SourceRow, b: seq<SourceRow>, key: Key)
    ensures Group(bucket, a + [r] + b, key)
         == Group(bucket, a, key) + (if bucket(r.ts) == key.start && r.instrument == key.instrument then [r] else [])
            + Group(bucket, b, key)
  {
    if b == [] {
      assert (a + [r] + b)[..|a|] == a && a + [r] + b == a + [r];
    } else {
      var n := |b| - 1;
      GroupFilters(bucket, a, r, b[..n], key);
      assert (a + [r] + b)[..|a| + 1 + n] == a + [r] + b[..n];
    }
  }

  // ---------------------------------------------------------------- first and last

  lemma {:induction false} SortedFirst(s: seq<SourceRow>) returns (i: nat)
    requires s != []
    ensures IsEarliest(s, i) && StableSort(TsLeq, s) != [] && StableSort(TsLeq, s)[0] == s[i]
  {
    i := 0;
    if |s| > 1 {
      i := SortedFirst(s[1..]);
      if s[0].ts <= s[i + 1].ts {
        i := 0;
      } else {
        i := i + 1;
      }
    }
  }

  lemma {:induction false} InsertLast(x: SourceRow, t: seq<SourceRow>)
    requires t != [] && Sorted(TsLeq, t)
    ensures Insert(TsLeq, x, t) != []
    ensures Last(Insert(TsLeq, x, t)) == if x.ts > Last(t).ts then x else Last(t)
  {
    if x.ts > t[0].ts {
      if |t| == 1 {
        assert t[1..] == [];
      } else {
        InsertLast(x, t[1..]);
      }
    } else if |t| > 1 {
      assert TsLeq(t[0], Last(t));
    }
  }

  lemma {:induction false} SortedLast(s: seq<SourceRow>) returns (i: nat)
    requires s != []
    ensures IsLatest(s, i) && StableSort(TsLeq, s) != [] && Last(StableSort(TsLeq, s)) == s[i]
  {
    i := 0;
    if |s| > 1 {
      i := SortedLast(s[1..]);
      Orders();
      StableSortCorrect(TsLeq, s[1..]);
      InsertLast(s[0], StableSort(TsLeq, s[1..]));
      if s[0].ts > s[i + 1].ts {
        i := 0;
      } else {
        i := i + 1;
      }
    } else {
      assert s[1..] == [];
    }
  }

  // ---------------------------------------------------------------- volume

  lemma {:induction false} InsertVolume(x: SourceRow, t: seq<SourceRow>)
    ensures Volume(Insert(TsLeq, x, t)) == x.volume + Volume(t)
  {
    if t == [] || TsLeq(x, t[0]) {
      assert ([x] + t)[1..] == t;
    } else {
      InsertVolume(x, t[1..]);
      assert ([t[0]] + Insert(TsLeq, x, t[1..]))[1..] == Insert(TsLeq, x, t[1..]);
    }
  }

  lemma {:induction false} SortVolume(s: seq<SourceRow>)
    ensures Volume(StableSort(TsLeq, s)) == Volume(s)
  {
    if s != [] {
      SortVolume(s[1..]);
      InsertVolume(s[0], StableSort(TsLeq, s[1..]));
    }
  }

  lemma {:induction false} VolumeIsTotal(s: seq<SourceRow>)
    ensures Volume(s) == TotalVolume(s)
  {
    if s != [] {
      var n := |s| - 1;
      VolumeIsTotal(s[..n]);
      VolumeConcat(s[..n], [s[n]]);
      assert s == s[..n] + [s[n]] && [s[n]][1..] == [];
      assert Volume([s[n]]) == s[n].volume;
    }
  }

  // ---------------------------------------------------------------- the rows of the aggregate

  lemma GroupExtremes(group: seq<SourceRow>)
    requires group != []
    ensures var o := StableSort(TsLeq, group);
            && o != []
            && (forall i :: 0 <= i < |group| ==>
                  LowestOf(LowPrice, o) <= group[i].low && group[i].high <= HighestOf(HighPrice, o))
            && (exists i :: 0 <= i < |group| && group[i].high == HighestOf(HighPrice, o))
            && (exists i :: 0 <= i < |group| && group[i].low == LowestOf(LowPrice, o))
  {
    var o := StableSort(TsLeq, group);
    Orders();
    SortMembers(TsLeq, group);
    Extremes(o);
    forall i | 0 <= i < |group|
      ensures LowestOf(LowPrice, o) <= group[i].low && group[i].high <= HighestOf(HighPrice, o)
    {
      assert group[i] in group;
      var k :| 0 <= k < |o| && o[k] == group[i];
    }
    var h :| 0 <= h < |o| && o[h].high == HighestOf(HighPrice, o);
    var l :| 0 <= l < |o| && o[l].low == LowestOf(LowPrice, o);
    assert o[h] in group && o[l] in group;
  }

  lemma SummarizeSumsUp(key: Key, group: seq<SourceRow>)
    requires group != []
    ensures StableSort(TsLeq, group) != [] && SumsUp(key, group, Summarize(key, StableSort(TsLeq, group)))
  {
    var first := SortedFirst(group);
    var last := SortedLast(group);
    GroupExtremes(group);
    SortVolume(group);
    VolumeIsTotal(group);
  }

  /** Every row of the aggregate sums up the input rows of its bucket and instrument; rows come in strictly ascending
      order of bucket and instrument; and every input row has its row. */
  lemma AggregateIs(bucket: Bucketing, rows: seq<SourceRow>)
    ensures var out := Aggregate(bucket, rows);
            && (forall i :: 0 <= i < |out| ==>
                  var key := Key(out[i].ts, out[i].instrument); SumsUp(key, Group(bucket, rows, key), out[i]))
            && (forall i, j :: 0 <= i < j < |out| ==> Before(out[i], out[j]))
            && (forall r :: r in rows ==> exists i :: 0 <= i < |out| && HasKey(out[i], bucket, r))
  {
    var out, keys := Aggregate(bucket, rows), SortedKeys(bucket, rows);
    SortedKeysFiled(bucket, rows);
    forall i | 0 <= i < |out|
      ensures var key := Key(out[i].ts, out[i].instrument); SumsUp(key, Group(bucket, rows, key), out[i])
    {
      AggregateRow(bucket, rows, i);
      KeysFacts(bucket, rows, keys[i]);
      SummarizeSumsUp(keys[i], Group(bucket, rows, keys[i]));
    }
    forall i, j | 0 <= i < j < |out| ensures Before(out[i], out[j]) {
      assert KeyLeq(keys[i], keys[j]) && keys[i] != keys[j];
      TextLeqIff(out[i].instrument, out[j].instrument);
    }
    forall r | r in rows ensures exists i :: 0 <= i < |out| && HasKey(out[i], bucket, r) {
      KeysFacts(bucket, rows, KeyOf(bucket, r));
      var i :| 0 <= i < |keys| && keys[i] == KeyOf(bucket, r);
      assert HasKey(out[i], bucket, r);
    }
  }

  ghost predicate Before(a: SourceRow, b: SourceRow) {
    a.ts < b.ts || (a.ts == b.ts && a.instrument != b.instrument && Precedes(a.instrument, b.instrument))
  }

  ghost predicate HasKey(row: SourceRow, bucket: Bucketing, r: SourceRow) {
    row.ts == bucket(r.ts) && row.instrument == r.instrument
  }
}
