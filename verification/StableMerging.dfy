/** Merging sorted runs by repeatedly taking the least head, ties to the lowest run. */
module StableMerging {
  import opened StableSorting

  function Concat<T>(files: seq<seq<T>>): seq<T> {
    if files == [] then [] else files[0] + Concat(files[1..])
  }

  ghost predicate AllSorted<T>(leq: (T, T) -> bool, files: seq<seq<T>>) {
    forall i :: 0 <= i < |files| ==> Sorted(leq, files[i])
  }

  /** Run `least` is the one a heap of (key, run index) entries pops. */
  ghost predicate IsLeastHead<T>(leq: (T, T) -> bool, files: seq<seq<T>>, least: int) {
    && 0 <= least < |files| && files[least] != []
    && forall j :: 0 <= j < |files| && files[j] != [] ==>
         leq(files[least][0], files[j][0]) && (j < least ==> !leq(files[j][0], files[least][0]))
  }

  /** The run to take from, or -1 when every run is exhausted. */
  function LeastHead<T(!new)>(leq: (T, T) -> bool, files: seq<seq<T>>): (least: int)
    requires TotalPreorder(leq)
    ensures least == -1 ==> forall j :: 0 <= j < |files| ==> files[j] == []
    ensures least != -1 ==> IsLeastHead(leq, files, least)
  {
    if files == [] then -1
    else
      var n := |files| - 1;
      var before := LeastHead(leq, files[..n]);
      if files[n] == [] then before
      else if before == -1 || !leq(files[before][0], files[n][0]) then n
      else before
  }

  lemma LeastHeadUnique<T(!new)>(leq: (T, T) -> bool, files: seq<seq<T>>, i: int)
    requires TotalPreorder(leq) && IsLeastHead(leq, files, i)
    ensures LeastHead(leq, files) == i
  {
    var least := LeastHead(leq, files);
    assert least != -1 && files[least] != [] && files[i] != [];
  }

  function TotalLines<T>(files: seq<seq<T>>): nat {
    if files == [] then 0 else |files[0]| + TotalLines(files[1..])
  }

  lemma {:induction false} TakingShrinks<T>(files: seq<seq<T>>, i: nat)
    requires i < |files| && files[i] != []
    ensures TotalLines(files[i := files[i][1..]]) == TotalLines(files) - 1
  {
    if i > 0 {
      TakingShrinks(files[1..], i - 1);
      assert files[i := files[i][1..]][1..] == files[1..][i - 1 := files[i][1..]];
    } else {
      assert files[0 := files[0][1..]][1..] == files[1..];
    }
  }

  function Merge<T(!new)>(leq: (T, T) -> bool, files: seq<seq<T>>): seq<T>
    requires TotalPreorder(leq)
    decreases TotalLines(files)
  {
    var i := LeastHead(leq, files);
    if i == -1 then []
    else
      TakingShrinks(files, i);
      [files[i][0]] + Merge(leq, files[i := files[i][1..]])
  }

  lemma {:induction false} AllEmpty<T>(files: seq<seq<T>>)
    requires forall i :: 0 <= i < |files| ==> files[i] == []
    ensures Concat(files) == []
  {
    if files != [] {
      AllEmpty(files[1..]);
    }
  }

  /** A run whose head lies strictly above `head` has nothing that ties with `head`. */
  lemma NoTieBelow<T(!new)>(leq: (T, T) -> bool, x: T, head: T, run: seq<T>)
    requires TotalPreorder(leq) && Sorted(leq, run)
    requires run != [] ==> !leq(run[0], head)
    ensures leq(x, head) && leq(head, x) ==> Ties(leq, x, run) == []
  {
    if leq(x, head) && leq(head, x) {
      forall i | 0 <= i < |run| ensures !leq(run[i], x) {
        assert leq(run[0], run[0]);
        assert leq(run[0], run[i]);
      }
      NoTies(leq, x, run);
    }
  }

  /** Popping the least head takes the first element of its tie class in run order. */
  lemma {:induction false} TakingKeepsTies<T(!new)>(leq: (T, T) -> bool, x: T, files: seq<seq<T>>, i: nat)
    requires TotalPreorder(leq) && AllSorted(leq, files) && i < |files| && files[i] != []
    requires forall j :: 0 <= j < i && files[j] != [] ==> !leq(files[j][0], files[i][0])
    ensures Ties(leq, x, [files[i][0]]) + Ties(leq, x, Concat(files[i := files[i][1..]]))
         == Ties(leq, x, Concat(files))
  {
    var head, rest := files[i][0], files[i := files[i][1..]];
    if i == 0 {
      TakingFirstKeepsTies(leq, x, files);
    } else {
      var tail := files[1..];
      assert rest[1..] == tail[i - 1 := tail[i - 1][1..]];
      TakingKeepsTies(leq, x, tail, i - 1);
      TiesConcat(leq, x, files[0], Concat(tail));
      TiesConcat(leq, x, files[0], Concat(rest[1..]));
      NoTieBelow(leq, x, head, files[0]);
      PutFirst(Ties(leq, x, [head]), Ties(leq, x, files[0]), Ties(leq, x, Concat(rest[1..])));
    }
  }

  /** Where one of two parts is empty their order does not matter. */
  lemma PutFirst<T>(a: seq<T>, b: seq<T>, c: seq<T>)
    requires a == [] || b == []
    ensures a + (b + c) == b + (a + c)
  {
  }

  lemma TakingFirstKeepsTies<T(!new)>(leq: (T, T) -> bool, x: T, files: seq<seq<T>>)
    requires files != [] && files[0] != []
    ensures Ties(leq, x, [files[0][0]]) + Ties(leq, x, Concat(files[0 := files[0][1..]])) == Ties(leq, x, Concat(files))
  {
    var head, others := files[0][0], Concat(files[1..]);
    assert files[0] == [head] + files[0][1..];
    assert files[0 := files[0][1..]][1..] == files[1..];
    TiesConcat(leq, x, files[0], others);
    TiesConcat(leq, x, [head], files[0][1..]);
    TiesConcat(leq, x, files[0][1..], others);
  }

  /** Everything left is at or above the least head. */
  lemma {:induction false} ConcatAbove<T(!new)>(leq: (T, T) -> bool, x: T, files: seq<seq<T>>, y: T)
    requires TotalPreorder(leq) && AllSorted(leq, files) && y in Concat(files)
    requires forall j :: 0 <= j < |files| && files[j] != [] ==> leq(x, files[j][0])
    ensures leq(x, y)
  {
    if y in files[0] {
      assert leq(files[0][0], files[0][0]);
      assert leq(files[0][0], y);
    } else {
      ConcatAbove(leq, x, files[1..], y);
    }
  }

  lemma MergeStepSorted<T(!new)>(leq: (T, T) -> bool, files: seq<seq<T>>, i: nat, merged: seq<T>)
    requires TotalPreorder(leq) && AllSorted(leq, files) && IsLeastHead(leq, files, i)
    requires Sorted(leq, merged) && multiset(merged) == multiset(Concat(files[i := files[i][1..]]))
    ensures Sorted(leq, [files[i][0]] + merged)
  {
    var head, rest := files[i][0], files[i := files[i][1..]];
    forall k | 0 <= k < |rest| && rest[k] != [] ensures leq(head, rest[k][0]) {
      assert files[k] != [] && leq(files[k][0], files[k][0]);
      assert leq(files[k][0], rest[k][0]);
    }
    forall j | 0 <= j < |merged| ensures leq(head, merged[j]) {
      assert merged[j] in multiset(merged);
      ConcatAbove(leq, head, rest, merged[j]);
    }
  }

  /** Merging sorted runs yields the stable sort of their concatenation. */
  lemma {:induction false} MergeIsStableSort<T(!new)>(leq: (T, T) -> bool, files: seq<seq<T>>)
    requires TotalPreorder(leq) && AllSorted(leq, files)
    ensures Merge(leq, files) == StableSort(leq, Concat(files))
    decreases TotalLines(files)
  {
    var i := LeastHead(leq, files);
    if i == -1 {
      AllEmpty(files);
    } else {
      var head, rest := files[i][0], files[i := files[i][1..]];
      var merged, sorted := Merge(leq, rest), StableSort(leq, Concat(files));
      TakingShrinks(files, i);
      MergeIsStableSort(leq, rest);
      StableSortCorrect(leq, Concat(rest));
      StableSortCorrect(leq, Concat(files));
      MergeStepSorted(leq, files, i, merged);
      forall x ensures Ties(leq, x, [head] + merged) == Ties(leq, x, sorted) {
        TakingKeepsTies(leq, x, files, i);
        TiesConcat(leq, x, [head], merged);
      }
      StableSortUnique(leq, [head] + merged, sorted);
    }
  }

  ghost function SortEach<T>(leq: (T, T) -> bool, chunks: seq<seq<T>>): seq<seq<T>> {
    seq(|chunks|, i requires 0 <= i < |chunks| => StableSort(leq, chunks[i]))
  }

  lemma {:induction false} SortEachKeepsTies<T(!new)>(leq: (T, T) -> bool, x: T, chunks: seq<seq<T>>)
    requires TotalPreorder(leq)
    ensures Ties(leq, x, Concat(SortEach(leq, chunks))) == Ties(leq, x, Concat(chunks))
  {
    if chunks != [] {
      StableSortCorrect(leq, chunks[0]);
      SortEachKeepsTies(leq, x, chunks[1..]);
      assert SortEach(leq, chunks)[1..] == SortEach(leq, chunks[1..]);
      TiesConcat(leq, x, chunks[0], Concat(chunks[1..]));
      TiesConcat(leq, x, StableSort(leq, chunks[0]), Concat(SortEach(leq, chunks[1..])));
    }
  }

  /** Sorting the pieces and merging them is sorting the whole. */
  lemma MergeOfSortedPieces<T(!new)>(leq: (T, T) -> bool, chunks: seq<seq<T>>)
    requires TotalPreorder(leq)
    ensures Merge(leq, SortEach(leq, chunks)) == StableSort(leq, Concat(chunks))
  {
    var files := SortEach(leq, chunks);
    forall i | 0 <= i < |files| ensures Sorted(leq, files[i]) {
      StableSortCorrect(leq, chunks[i]);
    }
    MergeIsStableSort(leq, files);
    StableSortCorrect(leq, Concat(files));
    StableSortCorrect(leq, Concat(chunks));
    forall x ensures Ties(leq, x, Merge(leq, files)) == Ties(leq, x, StableSort(leq, Concat(chunks))) {
      SortEachKeepsTies(leq, x, chunks);
    }
    StableSortUnique(leq, Merge(leq, files), StableSort(leq, Concat(chunks)));
  }
}
