/** Aggregation of rows to clock buckets, scripts/verify_rust_materialize_golden.py. */
module RollUp {
  import opened Reals
  import opened Sequences
  import opened StableSorting
  import opened StableMerging
  import opened PythonText
  import opened ClockBuckets

  datatype SourceRow = SourceRow(ts: int, rtype: string, publisher: string, instrument: string,
                                 open: real, high: real, low: real, close: real, volume: real, symbol: string)

  datatype Key = Key(start: int, instrument: string)

  /** How instants are assigned to bucket starts. */
  type Bucketing = int -> int

  predicate TsLeq(a: SourceRow, b: SourceRow) { a.ts <= b.ts }

  predicate KeyLeq(a: Key, b: Key) {
    a.start < b.start || (a.start == b.start && TextLeq(a.instrument, b.instrument))
  }

  predicate RowLeq(a: SourceRow, b: SourceRow) {
    if a.ts != b.ts then a.ts < b.ts
    else if a.instrument != b.instrument then TextLeq(a.instrument, b.instrument)
    else TextLeq(a.symbol, b.symbol)
  }

  function KeyOf(bucket: Bucketing, row: SourceRow): Key { Key(bucket(row.ts), row.instrument) }

  /** Dictionary keys in the order in which rows first use them. */
  function Keys(bucket: Bucketing, rows: seq<SourceRow>): seq<Key> {
    if rows == [] then []
    else
      var before := Keys(bucket, rows[..|rows| - 1]);
      var key := KeyOf(bucket, rows[|rows| - 1]);
      if key in before then before else before + [key]
  }

  /** The rows filed under one key, in input order. */
  function Group(bucket: Bucketing, rows: seq<SourceRow>, key: Key): seq<SourceRow> {
    if rows == [] then []
    else
      var before := Group(bucket, rows[..|rows| - 1], key);
      if KeyOf(bucket, rows[|rows| - 1]) == key then before + [rows[|rows| - 1]] else before
  }

  function HighPrice(row: SourceRow): real { row.high }

  function LowPrice(row: SourceRow): real { row.low }

  function Volume(rows: seq<SourceRow>): real {
    if rows == [] then 0.0 else rows[0].volume + Volume(rows[1..])
  }

  /** The high is attained and bounds every row; the low likewise. */
  lemma Extremes(rows: seq<SourceRow>)
    requires rows != []
    ensures forall i :: 0 <= i < |rows| ==>
              LowestOf(LowPrice, rows) <= rows[i].low && rows[i].high <= HighestOf(HighPrice, rows)
    ensures exists i :: 0 <= i < |rows| && rows[i].high == HighestOf(HighPrice, rows)
    ensures exists i :: 0 <= i < |rows| && rows[i].low == LowestOf(LowPrice, rows)
  {
    forall i | 0 <= i < |rows|
      ensures LowestOf(LowPrice, rows) <= rows[i].low && rows[i].high <= HighestOf(HighPrice, rows)
    {
      ColumnExtremes(HighPrice, rows, i);
      ColumnExtremes(LowPrice, rows, i);
    }
    assert HighestOf(HighPrice, rows) in Column(HighPrice, rows) && LowestOf(LowPrice, rows) in Column(LowPrice, rows);
  }

  /** One output row from the rows of a key in time order. */
  function Summarize(key: Key, ordered: seq<SourceRow>): SourceRow
    requires ordered != []
  {
    SourceRow(key.start, "", "", key.instrument, ordered[0].open,
              HighestOf(HighPrice, ordered), LowestOf(LowPrice, ordered),
              ordered[|ordered| - 1].close, Volume(ordered), ordered[0].symbol)
  }

  function Ordered(bucket: Bucketing, rows: seq<SourceRow>, key: Key): seq<SourceRow> {
    StableSort(TsLeq, Group(bucket, rows, key))
  }

  ghost predicate Filed(bucket: Bucketing, rows: seq<SourceRow>, keys: seq<Key>) {
    forall k :: k in keys ==> Ordered(bucket, rows, k) != []
  }

  function RowFor(bucket: Bucketing, rows: seq<SourceRow>, key: Key): SourceRow
    requires Ordered(bucket, rows, key) != []
  {
    Summarize(key, Ordered(bucket, rows, key))
  }

  function RowsFor(bucket: Bucketing, rows: seq<SourceRow>, keys: seq<Key>): (out: seq<SourceRow>)
    requires Filed(bucket, rows, keys)
    ensures |out| == |keys|
    ensures forall i :: 0 <= i < |keys| ==>
              Ordered(bucket, rows, keys[i]) != [] && out[i] == Summarize(keys[i], Ordered(bucket, rows, keys[i]))
  {
    assert forall i :: 0 <= i < |keys| ==> keys[i] in keys;
    seq(|keys|, i requires 0 <= i < |keys| => RowFor(bucket, rows, keys[i]))
  }

  function SortedKeys(bucket: Bucketing, rows: seq<SourceRow>): seq<Key> {
    StableSort(KeyLeq, Keys(bucket, rows))
  }

  /** The aggregate of `rows`: one row per key, in key order. */
  function Aggregate(bucket: Bucketing, rows: seq<SourceRow>): seq<SourceRow> {
    SortedKeysFiled(bucket, rows);
    RowsFor(bucket, rows, SortedKeys(bucket, rows))
  }

  // ---------------------------------------------------------------- orders and keys

  lemma Orders()
    ensures TotalPreorder(TsLeq) && TotalPreorder(KeyLeq) && TotalPreorder(RowLeq)
  {
    forall a, b, c
      ensures KeyLeq(a, b) || KeyLeq(b, a)
      ensures KeyLeq(a, b) && KeyLeq(b, c) ==> KeyLeq(a, c)
    {
      TextOrder(a.instrument, b.instrument, c.instrument);
    }
    forall a, b, c
      ensures RowLeq(a, b) || RowLeq(b, a)
      ensures RowLeq(a, b) && RowLeq(b, c) ==> RowLeq(a, c)
    {
      TextOrder(a.instrument, b.instrument, c.instrument);
      TextOrder(b.instrument, c.instrument, a.instrument);
      TextOrder(a.symbol, b.symbol, c.symbol);
    }
  }

  lemma {:induction false} KeysFacts(bucket: Bucketing, rows: seq<SourceRow>, k: Key)
    ensures Distinct(Keys(bucket, rows))
    ensures k in Keys(bucket, rows) <==> exists r :: r in rows && KeyOf(bucket, r) == k
    ensures k in Keys(bucket, rows) <==> Group(bucket, rows, k) != []
  {
    if rows != [] {
      var init, r := rows[..|rows| - 1], rows[|rows| - 1];
      KeysFacts(bucket, init, k);
      assert rows == init + [r] && r in rows;
      if q :| q in rows && KeyOf(bucket, q) == k {
        assert q == r || q in init;
      }
    }
  }

  lemma {:induction false} GroupMembers(bucket: Bucketing, rows: seq<SourceRow>, k: Key, r: SourceRow)
    ensures r in Group(bucket, rows, k) <==> r in rows && KeyOf(bucket, r) == k
  {
    if rows != [] {
      GroupMembers(bucket, rows[..|rows| - 1], k, r);
      assert rows == rows[..|rows| - 1] + [rows[|rows| - 1]];
    }
  }

  /** Sorted and without repetition: such a list is determined by its members. */
  ghost predicate Strict(keys: seq<Key>) {
    Sorted(KeyLeq, keys) && Distinct(keys)
  }

  lemma SortedKeysFiled(bucket: Bucketing, rows: seq<SourceRow>)
    ensures Filed(bucket, rows, SortedKeys(bucket, rows)) && Strict(SortedKeys(bucket, rows))
    ensures forall k :: k in SortedKeys(bucket, rows) <==> k in Keys(bucket, rows)
  {
    Orders();
    var keys := Keys(bucket, rows);
    SortMembers(KeyLeq, keys);
    StableSortCorrect(KeyLeq, keys);
    KeysFacts(bucket, rows, Key(0, ""));
    SortDistinct(keys);
    forall k | k in SortedKeys(bucket, rows) ensures Ordered(bucket, rows, k) != [] {
      KeysFacts(bucket, rows, k);
      SortMembers(TsLeq, Group(bucket, rows, k));
    }
  }

  lemma SortDistinct(keys: seq<Key>)
    requires TotalPreorder(KeyLeq) && Distinct(keys)
    ensures Distinct(StableSort(KeyLeq, keys))
  {
    StableSortCorrect(KeyLeq, keys);
    DistinctMultiset(keys);
    MultisetDistinct(StableSort(KeyLeq, keys));
  }

  lemma {:induction false} DistinctMultiset<T>(s: seq<T>)
    requires Distinct(s)
    ensures forall x :: multiset(s)[x] <= 1
  {
    if s != [] {
      DistinctMultiset(s[1..]);
      assert s == [s[0]] + s[1..];
      assert s[0] !in s[1..];
    }
  }

  lemma {:induction false} MultisetDistinct<T>(s: seq<T>)
    requires forall x :: multiset(s)[x] <= 1
    ensures Distinct(s)
  {
    if s != [] {
      var t := s[1..];
      assert s == [s[0]] + t;
      assert forall x {:trigger multiset(t)[x]} :: multiset(t)[x] <= multiset(s)[x];
      MultisetDistinct(t);
      assert multiset(t)[s[0]] == 0;
      assert s[0] !in t;
    }
  }

  lemma FirstMember(keys: seq<Key>)
    ensures keys != [] ==> keys[0] in keys
  {
  }

  lemma {:induction false} StrictUnique(a: seq<Key>, b: seq<Key>)
    requires Strict(a) && Strict(b) && forall k :: k in a <==> k in b
    ensures a == b
  {
    Orders();
    FirstMember(a);
    FirstMember(b);
    if a != [] {
      assert a[0] in b;
      assert b[0] in a;
      TextOrder(a[0].instrument, b[0].instrument, a[0].instrument);
      assert KeyLeq(a[0], b[0]) && KeyLeq(b[0], a[0]);
      assert a[0] == b[0];
      assert a == [a[0]] + a[1..] && b == [b[0]] + b[1..];
      forall k ensures k in a[1..] <==> k in b[1..] {
        assert k in a <==> k == a[0] || k in a[1..];
        assert k in b <==> k == b[0] || k in b[1..];
        assert a[0] !in a[1..] && b[0] !in b[1..];
      }
      StrictUnique(a[1..], b[1..]);
    }
  }

  // ---------------------------------------------------------------- folding a flattened list

  lemma {:induction false} VolumeConcat(a: seq<SourceRow>, b: seq<SourceRow>)
    ensures Volume(a + b) == Volume(a) + Volume(b)
  {
    if a == [] {
      assert a + b == b;
    } else {
      assert (a + b)[1..] == a[1..] + b;
      VolumeConcat(a[1..], b);
    }
  }

  /** Summaries of consecutive non-empty pieces, under any keys. */
  ghost predicate Summaries(pieces: seq<seq<SourceRow>>, rows: seq<SourceRow>) {
    && |pieces| == |rows|
    && (forall i :: 0 <= i < |pieces| ==> pieces[i] != [])
    && forall i :: 0 <= i < |pieces| ==> rows[i] == Summarize(Key(rows[i].ts, rows[i].instrument), pieces[i])
  }

  lemma SummaryOfOne(key: Key, r: SourceRow)
    ensures Summarize(key, [r]) == r.(ts := key.start, rtype := "", publisher := "", instrument := key.instrument)
  {
    ColumnExtremesOfOne(HighPrice, r);
    ColumnExtremesOfOne(LowPrice, r);
    assert Volume([r]) == r.volume + Volume([]);
  }

  /** Replacing a first piece by its summary and the rest by anything with the same summary. */
  lemma SummarizeSplit(key: Key, p: seq<SourceRow>, rest: seq<SourceRow>, r: SourceRow, rows: seq<SourceRow>)
    requires p != [] && rest != [] && rows != []
    requires r == Summarize(Key(r.ts, r.instrument), p) && Summarize(key, rest) == Summarize(key, rows)
    ensures Summarize(key, p + rest) == Summarize(key, [r] + rows)
  {
    SummarizeConcat(key, p, rest);
    SummarizeConcat(key, [r], rows);
    SummaryOfOne(key, r);
  }

  /** The row that two summaries in succession add up to. */
  function Joined(a: SourceRow, b: SourceRow): SourceRow {
    a.(high := Max(a.high, b.high), low := Min(a.low, b.low), close := b.close, volume := a.volume + b.volume)
  }

  lemma SummarizeConcat(key: Key, a: seq<SourceRow>, b: seq<SourceRow>)
    requires a != [] && b != []
    ensures Summarize(key, a + b) == Joined(Summarize(key, a), Summarize(key, b))
  {
    ExtremesJoin(a, b);
    VolumeConcat(a, b);
    assert (a + b)[|a + b| - 1] == b[|b| - 1] && (a + b)[0] == a[0];
  }

  lemma ExtremesJoin(a: seq<SourceRow>, b: seq<SourceRow>)
    requires a != [] && b != []
    ensures HighestOf(HighPrice, a + b) == Max(HighestOf(HighPrice, a), HighestOf(HighPrice, b))
    ensures LowestOf(LowPrice, a + b) == Min(LowestOf(LowPrice, a), LowestOf(LowPrice, b))
  {
    ColumnExtremesConcat(HighPrice, a, b);
    ColumnExtremesConcat(LowPrice, a, b);
  }

  /** Summarizing the summaries of the pieces is summarizing the whole. */
  lemma {:induction false} SummarizeFlattened(key: Key, pieces: seq<seq<SourceRow>>, rows: seq<SourceRow>)
    requires pieces != [] && Summaries(pieces, rows)
    ensures Concat(pieces) != [] && Summarize(key, Concat(pieces)) == Summarize(key, rows)
  {
    var p, r := pieces[0], rows[0];
    assert p != [];
    if |pieces| == 1 {
      assert pieces[1..] == [] && Concat(pieces) == p;
      assert rows == [r];
      SummaryOfOne(key, r);
    } else {
      SummarizeFlattened(key, pieces[1..], rows[1..]);
      var rest := Concat(pieces[1..]);
      assert Concat(pieces) == p + rest && rows == [r] + rows[1..];
      SummarizeSplit(key, p, rest, r, rows[1..]);
    }
  }

  // ---------------------------------------------------------------- the pieces of a coarse group

  /** Fine buckets are monotone and refine coarse ones. */
  ghost predicate Refines(fine: Bucketing, coarse: Bucketing) {
    && (forall t, u :: t <= u ==> fine(t) <= fine(u))
    && (forall t :: coarse(fine(t)) == coarse(t))
  }

  function Up(coarse: Bucketing, k: Key): Key { Key(coarse(k.start), k.instrument) }

  /** The fine keys that roll up into a coarse key. */
  function Under(coarse: Bucketing, keys: seq<Key>, key: Key): (under: seq<Key>)
    ensures forall k :: k in under <==> k in keys && Up(coarse, k) == key
  {
    if keys == [] then []
    else (if Up(coarse, keys[0]) == key then [keys[0]] else []) + Under(coarse, keys[1..], key)
  }

  ghost function Pieces(bucket: Bucketing, rows: seq<SourceRow>, keys: seq<Key>): (pieces: seq<seq<SourceRow>>)
    ensures |pieces| == |keys|
    ensures forall i :: 0 <= i < |keys| ==> pieces[i] == Ordered(bucket, rows, keys[i])
  {
    if keys == [] then [] else [Ordered(bucket, rows, keys[0])] + Pieces(bucket, rows, keys[1..])
  }

  lemma OrderedMembers(bucket: Bucketing, rows: seq<SourceRow>, k: Key, r: SourceRow)
    ensures r in Ordered(bucket, rows, k) <==> r in rows && KeyOf(bucket, r) == k
  {
    Orders();
    SortMembers(TsLeq, Group(bucket, rows, k));
    GroupMembers(bucket, rows, k, r);
  }

  /** Rows at one instant: the coarse group has exactly those of the instant's fine group. */
  lemma {:induction false} TiesAcrossBuckets(fine: Bucketing, coarse: Bucketing, rows: seq<SourceRow>, key: Key,
                                             x: SourceRow)
    requires Refines(fine, coarse)
    ensures Ties(TsLeq, x, Group(coarse, rows, key))
         == if coarse(x.ts) == key.start then Ties(TsLeq, x, Group(fine, rows, Key(fine(x.ts), key.instrument))) else []
  {
    if rows != [] {
      var init, r := rows[..|rows| - 1], rows[|rows| - 1];
      TiesAcrossBuckets(fine, coarse, init, key, x);
      TiesConcat(TsLeq, x, Group(coarse, init, key), [r]);
      TiesConcat(TsLeq, x, Group(fine, init, Key(fine(x.ts), key.instrument)), [r]);
    }
  }

  lemma TiesOfOtherGroup(fine: Bucketing, rows: seq<SourceRow>, k: Key, x: SourceRow)
    requires fine(x.ts) != k.start
    ensures Ties(TsLeq, x, Group(fine, rows, k)) == []
  {
    var group := Group(fine, rows, k);
    forall i | 0 <= i < |group| ensures group[i].ts != x.ts {
      GroupMembers(fine, rows, k, group[i]);
    }
    NoTies(TsLeq, x, group);
  }

  lemma {:induction false} TiesOfPieces(fine: Bucketing, rows: seq<SourceRow>, keys: seq<Key>, own: Key, x: SourceRow)
    requires Distinct(keys) && own.start == fine(x.ts)
    requires forall i :: 0 <= i < |keys| ==> keys[i].instrument == own.instrument
    ensures Ties(TsLeq, x, Concat(Pieces(fine, rows, keys)))
         == if own in keys then Ties(TsLeq, x, Group(fine, rows, own)) else []
  {
    if keys != [] {
      var k, rest := keys[0], keys[1..];
      TiesOfPieces(fine, rows, rest, own, x);
      Orders();
      StableSortCorrect(TsLeq, Group(fine, rows, k));
      TiesConcat(TsLeq, x, Ordered(fine, rows, k), Concat(Pieces(fine, rows, rest)));
      assert own in keys <==> own == k || own in rest;
      if k == own {
        assert own !in rest;
      } else {
        TiesOfOtherGroup(fine, rows, k, x);
      }
    }
  }

  /** Consecutive fine groups put end to end are in time order. */
  lemma {:induction false} PiecesSorted(fine: Bucketing, coarse: Bucketing, rows: seq<SourceRow>, keys: seq<Key>,
                                        instrument: string)
    requires Refines(fine, coarse) && Strict(keys) && forall k :: k in keys ==> k.instrument == instrument
    ensures Sorted(TsLeq, Concat(Pieces(fine, rows, keys)))
    ensures forall y :: y in Concat(Pieces(fine, rows, keys)) ==> KeyOf(fine, y) in keys
  {
    if keys != [] {
      Orders();
      var k, first, rest := keys[0], Ordered(fine, rows, keys[0]), Concat(Pieces(fine, rows, keys[1..]));
      PiecesSorted(fine, coarse, rows, keys[1..], instrument);
      StableSortCorrect(TsLeq, Group(fine, rows, k));
      forall y, z | y in first && z in rest ensures TsLeq(y, z) {
        OrderedMembers(fine, rows, k, y);
        var kz := KeyOf(fine, z);
        assert kz in keys[1..];
        assert k in keys && k != kz && KeyLeq(k, kz);
        assert fine(y.ts) < fine(z.ts);
      }
      forall y | y in first ensures KeyOf(fine, y) in keys {
        OrderedMembers(fine, rows, k, y);
      }
      assert Concat(Pieces(fine, rows, keys)) == first + rest;
    }
  }

  lemma {:induction false} UnderStrict(coarse: Bucketing, keys: seq<Key>, key: Key)
    requires Strict(keys)
    ensures Strict(Under(coarse, keys, key))
  {
    if keys != [] {
      UnderStrict(coarse, keys[1..], key);
      var under := Under(coarse, keys[1..], key);
      assert forall i :: 0 <= i < |under| ==> under[i] in under;
    }
  }

  /** A coarse group in time order is its fine groups in time order, end to end. */
  lemma CoarseIsFlattenedFine(fine: Bucketing, coarse: Bucketing, rows: seq<SourceRow>, key: Key)
    requires Refines(fine, coarse)
    ensures Ordered(coarse, rows, key)
         == Concat(Pieces(fine, rows, Under(coarse, SortedKeys(fine, rows), key)))
  {
    Orders();
    var keys := Under(coarse, SortedKeys(fine, rows), key);
    var flat := Concat(Pieces(fine, rows, keys));
    SortedKeysFiled(fine, rows);
    UnderStrict(coarse, SortedKeys(fine, rows), key);
    PiecesSorted(fine, coarse, rows, keys, key.instrument);
    StableSortCorrect(TsLeq, Group(coarse, rows, key));
    assert forall i :: 0 <= i < |keys| ==> keys[i] in keys;
    forall x ensures Ties(TsLeq, x, Ordered(coarse, rows, key)) == Ties(TsLeq, x, flat) {
      var own := Key(fine(x.ts), key.instrument);
      TiesAcrossBuckets(fine, coarse, rows, key, x);
      TiesOfPieces(fine, rows, keys, own, x);
      KeysFacts(fine, rows, own);
    }
    StableSortUnique(TsLeq, Ordered(coarse, rows, key), flat);
  }

  // ---------------------------------------------------------------- roll-up

  /** The rows of the fine aggregate filed under a coarse key are its fine keys' rows, in order. */
  lemma {:induction false} AggregateGroup(fine: Bucketing, coarse: Bucketing, rows: seq<SourceRow>, keys: seq<Key>,
                                          key: Key)
    requires Refines(fine, coarse) && Filed(fine, rows, keys) && Strict(keys)
    ensures Filed(fine, rows, Under(coarse, keys, key))
    ensures Group(coarse, RowsFor(fine, rows, keys), key) == RowsFor(fine, rows, Under(coarse, keys, key))
  {
    if keys != [] {
      var n := |keys| - 1;
      var init, k := keys[..n], keys[n];
      assert keys == init + [k];
      AggregateGroup(fine, coarse, rows, init, key);
      UnderAppend(coarse, init, k, key);
      RowsForAppend(fine, rows, init, k);
      if Up(coarse, k) == key {
        RowsForAppend(fine, rows, Under(coarse, init, key), k);
      }
    }
  }

  lemma {:induction false} UnderAppend(coarse: Bucketing, keys: seq<Key>, k: Key, key: Key)
    ensures Under(coarse, keys + [k], key)
         == Under(coarse, keys, key) + (if Up(coarse, k) == key then [k] else [])
  {
    if keys != [] {
      assert (keys + [k])[1..] == keys[1..] + [k];
      UnderAppend(coarse, keys[1..], k, key);
    }
  }

  lemma RowsForAppend(bucket: Bucketing, rows: seq<SourceRow>, keys: seq<Key>, k: Key)
    requires Filed(bucket, rows, keys + [k])
    ensures Filed(bucket, rows, keys) && k in keys + [k]
    ensures RowsFor(bucket, rows, keys + [k])
         == RowsFor(bucket, rows, keys) + [Summarize(k, Ordered(bucket, rows, k))]
  {
    var longer := keys + [k];
    assert longer[|keys|] == k && forall i :: 0 <= i < |keys| ==> keys[i] == longer[i] && keys[i] in longer;
  }

  /** Both routes lead to the same coarse keys. */
  lemma CoarseKeysAgree(fine: Bucketing, coarse: Bucketing, rows: seq<SourceRow>)
    requires Refines(fine, coarse)
    ensures SortedKeys(coarse, Aggregate(fine, rows)) == SortedKeys(coarse, rows)
  {
    var agg := Aggregate(fine, rows);
    SortedKeysFiled(coarse, rows);
    SortedKeysFiled(coarse, agg);
    forall key ensures key in SortedKeys(coarse, agg) <==> key in SortedKeys(coarse, rows) {
      if key in Keys(coarse, rows) {
        KeyReached(fine, coarse, rows, key);
      }
      if key in Keys(coarse, agg) {
        KeyUsed(fine, coarse, rows, key);
      }
    }
    StrictUnique(SortedKeys(coarse, agg), SortedKeys(coarse, rows));
  }

  lemma KeyReached(fine: Bucketing, coarse: Bucketing, rows: seq<SourceRow>, key: Key)
    requires Refines(fine, coarse) && key in Keys(coarse, rows)
    ensures key in Keys(coarse, Aggregate(fine, rows))
  {
    var agg, keys := Aggregate(fine, rows), SortedKeys(fine, rows);
    SortedKeysFiled(fine, rows);
    KeysFacts(coarse, rows, key);
    var r :| r in rows && KeyOf(coarse, r) == key;
    KeysFacts(fine, rows, KeyOf(fine, r));
    var i :| 0 <= i < |keys| && keys[i] == KeyOf(fine, r);
    assert agg[i] in agg && KeyOf(coarse, agg[i]) == key;
    KeysFacts(coarse, agg, key);
  }

  lemma KeyUsed(fine: Bucketing, coarse: Bucketing, rows: seq<SourceRow>, key: Key)
    requires Refines(fine, coarse) && key in Keys(coarse, Aggregate(fine, rows))
    ensures key in Keys(coarse, rows)
  {
    var agg, keys := Aggregate(fine, rows), SortedKeys(fine, rows);
    SortedKeysFiled(fine, rows);
    KeysFacts(coarse, agg, key);
    var a :| a in agg && KeyOf(coarse, a) == key;
    var i :| 0 <= i < |agg| && agg[i] == a;
    assert keys[i] in keys;
    KeysFacts(fine, rows, keys[i]);
    var r :| r in rows && KeyOf(fine, r) == keys[i];
    assert KeyOf(coarse, r) == key;
    KeysFacts(coarse, rows, key);
  }

  /** One coarse row, from the rows or from the fine aggregate. */
  lemma CoarseRowAgrees(fine: Bucketing, coarse: Bucketing, rows: seq<SourceRow>, key: Key)
    requires Refines(fine, coarse) && Ordered(coarse, rows, key) != []
    ensures Ordered(coarse, Aggregate(fine, rows), key) != []
    ensures Summarize(key, Ordered(coarse, Aggregate(fine, rows), key)) == Summarize(key, Ordered(coarse, rows, key))
  {
    Orders();
    var keys := SortedKeys(fine, rows);
    var under := Under(coarse, keys, key);
    SortedKeysFiled(fine, rows);
    AggregateGroup(fine, coarse, rows, keys, key);
    CoarseIsFlattenedFine(fine, coarse, rows, key);
    UnderStrict(coarse, keys, key);
    var parts, pieces := RowsFor(fine, rows, under), Pieces(fine, rows, under);
    PartsInTimeOrder(fine, rows, under, key.instrument);
    SortedIsFixed(TsLeq, parts);
    assert pieces != [];
    SummarizeFlattened(key, pieces, parts);
  }

  lemma PartsInTimeOrder(fine: Bucketing, rows: seq<SourceRow>, keys: seq<Key>, instrument: string)
    requires Filed(fine, rows, keys) && Strict(keys) && forall k :: k in keys ==> k.instrument == instrument
    ensures Sorted(TsLeq, RowsFor(fine, rows, keys))
  {
    var parts := RowsFor(fine, rows, keys);
    forall i, j | 0 <= i < j < |parts| ensures TsLeq(parts[i], parts[j]) {
      assert KeyLeq(keys[i], keys[j]);
    }
  }

  /** Roll-up is a homomorphism: aggregating through finer buckets changes nothing. */
  lemma RollUpHomomorphism(fine: Bucketing, coarse: Bucketing, rows: seq<SourceRow>)
    requires Refines(fine, coarse)
    ensures Aggregate(coarse, Aggregate(fine, rows)) == Aggregate(coarse, rows)
  {
    var agg := Aggregate(fine, rows);
    CoarseKeysAgree(fine, coarse, rows);
    SortedKeysFiled(coarse, rows);
    SortedKeysFiled(coarse, agg);
    var keys := SortedKeys(coarse, rows);
    forall i | 0 <= i < |keys| ensures Aggregate(coarse, agg)[i] == Aggregate(coarse, rows)[i] {
      assert keys[i] in keys;
      CoarseRowAgrees(fine, coarse, rows, keys[i]);
    }
  }

  // ---------------------------------------------------------------- clock buckets

  /** Clock bucketing for a calendar; instants before its first day are left alone. */
  function Clock(midnights: seq<int>, minutes: int): Bucketing
    requires Calendar(midnights) && minutes > 0
  {
    (t: int) => if t < midnights[0] then t else BucketStart(midnights, minutes, t)
  }

  lemma ClockRefines(midnights: seq<int>, minutes: int, k: int)
    requires Calendar(midnights) && minutes > 0 && k > 0
    ensures k * minutes > 0
    ensures Refines(Clock(midnights, minutes), Clock(midnights, k * minutes))
  {
    assert k * minutes > 0;
    var fine, coarse := Clock(midnights, minutes), Clock(midnights, k * minutes);
    forall t, u | t <= u ensures fine(t) <= fine(u) {
      if midnights[0] <= u {
        BucketContains(midnights, minutes, u);
      }
      if midnights[0] <= t {
        BucketMonotone(midnights, minutes, t, u);
      }
    }
    forall t ensures coarse(fine(t)) == coarse(t) {
      if midnights[0] <= t {
        BucketOfBucket(midnights, minutes, k, t);
      }
    }
  }

  /** Rolling `minutes`-minute rows up to a multiple of it is aggregating straight to the
      multiple, for every instrument and across days of any length. */
  lemma ClockRollUp(midnights: seq<int>, minutes: int, k: int, rows: seq<SourceRow>)
    requires Calendar(midnights) && minutes > 0 && k > 0
    ensures k * minutes > 0
    ensures Aggregate(Clock(midnights, k * minutes), Aggregate(Clock(midnights, minutes), rows))
         == Aggregate(Clock(midnights, k * minutes), rows)
  {
    ClockRefines(midnights, minutes, k);
    RollUpHomomorphism(Clock(midnights, minutes), Clock(midnights, k * minutes), rows);
  }

  // ---------------------------------------------------------------- the loops

  /** Every row gets the same bucket start, as in the one-day reference. */
  function Constant(start: int): Bucketing { (t: int) => start }

  /** The final sort of an aggregate leaves it as it is. */
  lemma AggregateSorted(bucket: Bucketing, rows: seq<SourceRow>)
    ensures StableSort(RowLeq, Aggregate(bucket, rows)) == Aggregate(bucket, rows)
  {
    var keys, out := SortedKeys(bucket, rows), Aggregate(bucket, rows);
    SortedKeysFiled(bucket, rows);
    forall i, j | 0 <= i < j < |out| ensures RowLeq(out[i], out[j]) {
      assert KeyLeq(keys[i], keys[j]) && keys[i] != keys[j];
    }
    Orders();
    SortedIsFixed(RowLeq, out);
  }

  lemma AggregateRow(bucket: Bucketing, rows: seq<SourceRow>, i: nat)
    requires i < |SortedKeys(bucket, rows)|
    ensures |Aggregate(bucket, rows)| == |SortedKeys(bucket, rows)|
    ensures var k := SortedKeys(bucket, rows)[i];
            && k in Keys(bucket, rows) && Ordered(bucket, rows, k) != []
            && Aggregate(bucket, rows)[i] == Summarize(k, Ordered(bucket, rows, k))
  {
    SortedKeysFiled(bucket, rows);
    var keys := SortedKeys(bucket, rows);
    assert keys[i] in keys;
  }

  /** Grouping rows of one instrument by instrument yields one group, the rows themselves. */
  lemma {:induction false} SingleInstrument(start: int, rows: seq<SourceRow>, instrument: string)
    requires rows != [] && forall i :: 0 <= i < |rows| ==> rows[i].instrument == instrument
    ensures Keys(Constant(start), rows) == [Key(start, instrument)]
    ensures Group(Constant(start), rows, Key(start, instrument)) == rows
  {
    var init := rows[..|rows| - 1];
    assert rows == init + [rows[|rows| - 1]];
    if init != [] {
      SingleInstrument(start, init, instrument);
    }
  }

  lemma AggregateOfGroup(bucket: Bucketing, rows: seq<SourceRow>, k: Key)
    requires k in Keys(bucket, rows)
    ensures Ordered(bucket, rows, k) != []
    ensures Aggregate(Constant(k.start), Group(bucket, rows, k)) == [Summarize(k, Ordered(bucket, rows, k))]
  {
    var group := Group(bucket, rows, k);
    KeysFacts(bucket, rows, k);
    forall i | 0 <= i < |group| ensures group[i].instrument == k.instrument {
      GroupMembers(bucket, rows, k, group[i]);
    }
    SingleInstrument(k.start, group, k.instrument);
    Orders();
    SortMembers(TsLeq, group);
    assert StableSort(KeyLeq, [k]) == [k];
  }

  /** The dictionary of row lists, with its insertion order. */
  method GroupRows(bucket: Bucketing, rows: seq<SourceRow>) returns (keys: seq<Key>, groups: map<Key, seq<SourceRow>>)
    ensures keys == Keys(bucket, rows)
    ensures forall k :: k in groups <==> k in keys
    ensures forall k :: k in groups ==> groups[k] == Group(bucket, rows, k)
  {
    keys, groups := [], map[];
    for i := 0 to |rows|
      invariant keys == Keys(bucket, rows[..i])
      invariant forall k :: k in groups <==> k in keys
      invariant forall k :: k in groups ==> groups[k] == Group(bucket, rows[..i], k)
    {
      assert rows[..i + 1][..i] == rows[..i];
      var key := KeyOf(bucket, rows[i]);
      KeysFacts(bucket, rows[..i], key);
      if key in groups {
        groups := groups[key := groups[key] + [rows[i]]];
      } else {
        keys, groups := keys + [key], groups[key := [rows[i]]];
      }
    }
    assert rows[..|rows|] == rows;
  }

  method AggregateFixtureRows(rows: seq<SourceRow>, start: int) returns (out: seq<SourceRow>)
    ensures out == Aggregate(Constant(start), rows)
  {
    out := SummarizeGroups(Constant(start), rows);
    AggregateSorted(Constant(start), rows);
    out := StableSort(RowLeq, out);
  }

  /** One row per group, in key order. */
  method SummarizeGroups(bucket: Bucketing, rows: seq<SourceRow>) returns (out: seq<SourceRow>)
    ensures out == Aggregate(bucket, rows)
  {
    var keys, groups := GroupRows(bucket, rows);
    var sorted := StableSort(KeyLeq, keys);
    ghost var whole := Aggregate(bucket, rows);
    forall i | 0 <= i < |sorted| ensures sorted[i] in groups && IsSummary(sorted[i], groups[sorted[i]], whole[i]) {
      AggregateRow(bucket, rows, i);
    }
    out := WriteRows(sorted, groups, whole);
  }

  ghost predicate IsSummary(key: Key, group: seq<SourceRow>, row: SourceRow) {
    StableSort(TsLeq, group) != [] && row == Summarize(key, StableSort(TsLeq, group))
  }

  method WriteRows(keys: seq<Key>, groups: map<Key, seq<SourceRow>>, ghost whole: seq<SourceRow>)
    returns (out: seq<SourceRow>)
    requires |whole| == |keys| && forall i :: 0 <= i < |keys| ==> keys[i] in groups
    requires forall i :: 0 <= i < |keys| ==> IsSummary(keys[i], groups[keys[i]], whole[i])
    ensures out == whole
  {
    out := [];
    for i := 0 to |keys|
      invariant out == whole[..i]
    {
      assert IsSummary(keys[i], groups[keys[i]], whole[i]);
      out := out + [Summarize(keys[i], StableSort(TsLeq, groups[keys[i]]))];
    }
  }

  method AggregateClockRows(midnights: seq<int>, rows: seq<SourceRow>, minutes: int) returns (out: seq<SourceRow>)
    requires Calendar(midnights) && minutes > 0
    ensures out == Aggregate(Clock(midnights, minutes), rows)
  {
    var bucket := Clock(midnights, minutes);
    out := AggregateBuckets(bucket, rows);
  }

  method AggregateBuckets(bucket: Bucketing, rows: seq<SourceRow>) returns (out: seq<SourceRow>)
    ensures out == Aggregate(bucket, rows)
  {
    var keys, groups := GroupRows(bucket, rows);
    var sorted := StableSort(KeyLeq, keys);
    ghost var whole := Aggregate(bucket, rows);
    forall i | 0 <= i < |sorted| ensures sorted[i] in groups && IsPart(sorted[i], groups[sorted[i]], whole[i]) {
      AggregateRow(bucket, rows, i);
      AggregateOfGroup(bucket, rows, sorted[i]);
    }
    out := JoinParts(sorted, groups, whole);
    AggregateSorted(bucket, rows);
    out := StableSort(RowLeq, out);
  }

  ghost predicate IsPart(key: Key, group: seq<SourceRow>, row: SourceRow) {
    Aggregate(Constant(key.start), group) == [row]
  }

  method JoinParts(keys: seq<Key>, groups: map<Key, seq<SourceRow>>, ghost whole: seq<SourceRow>)
    returns (out: seq<SourceRow>)
    requires |whole| == |keys| && forall i :: 0 <= i < |keys| ==> keys[i] in groups
    requires forall i :: 0 <= i < |keys| ==> IsPart(keys[i], groups[keys[i]], whole[i])
    ensures out == whole
  {
    out := [];
    for i := 0 to |keys|
      invariant out == whole[..i]
    {
      assert IsPart(keys[i], groups[keys[i]], whole[i]);
      var part := AggregateFixtureRows(groups[keys[i]], keys[i].start);
      out := out + part;
    }
  }
}
