/** Maximal runs of consecutive elements that carry the same key, such as the bars of
    one trading session. */
module SessionRuns {
  import opened Sequences

  /** The runs of `s`, oldest first; the last run is still open to growth. */
  function Runs<T, K(==)>(key: T -> K, s: seq<T>): (runs: seq<seq<T>>)
    ensures forall i :: 0 <= i < |runs| ==> runs[i] != []
    ensures runs == [] <==> s == []
  {
    if s == [] then []
    else
      var before := Runs(key, s[..|s| - 1]);
      if before != [] && key(Last(Last(before))) == key(Last(s))
      then before[..|before| - 1] + [Last(before) + [Last(s)]]
      else before + [[Last(s)]]
  }

  function Flatten<T>(runs: seq<seq<T>>): seq<T> {
    if runs == [] then [] else Flatten(runs[..|runs| - 1]) + Last(runs)
  }

  ghost predicate Uniform<T, K>(key: T -> K, run: seq<T>) {
    run != [] && forall i :: 0 <= i < |run| ==> key(run[i]) == key(run[0])
  }

  /** Uniform pieces whose neighbours differ: no piece can be extended. */
  ghost predicate Maximal<T, K>(key: T -> K, runs: seq<seq<T>>) {
    runs == [] ||
    var front, run := runs[..|runs| - 1], Last(runs);
    && Maximal(key, front) && Uniform(key, run)
    && (front != [] ==> Last(front) != [] && key(Last(front)[0]) != key(run[0]))
  }

  lemma GrowLastRun<T, K>(key: T -> K, runs: seq<seq<T>>, x: T)
    requires runs != [] && Maximal(key, runs) && key(Last(Last(runs))) == key(x)
    ensures var grown := runs[..|runs| - 1] + [Last(runs) + [x]];
            Maximal(key, grown) && Flatten(grown) == Flatten(runs) + [x]
  {
    var front, run := runs[..|runs| - 1], Last(runs);
    var grown := front + [run + [x]];
    assert grown[..|grown| - 1] == front && Last(grown) == run + [x];
    assert Flatten(grown) == Flatten(front) + (run + [x]) == Flatten(front) + run + [x];
  }

  /** The runs put end to end are the whole sequence, and they are maximal. */
  lemma {:induction false} RunsAreMaximal<T, K>(key: T -> K, s: seq<T>)
    ensures Flatten(Runs(key, s)) == s && Maximal(key, Runs(key, s))
  {
    if s != [] {
      var init, x := s[..|s| - 1], Last(s);
      assert s == init + [x];
      var before, runs := Runs(key, init), Runs(key, s);
      RunsAreMaximal(key, init);
      if before != [] && key(Last(Last(before))) == key(x) {
        GrowLastRun(key, before, x);
      } else {
        assert runs[..|runs| - 1] == before;
      }
    }
  }

  /** There is only one such cut. */
  lemma {:induction false} RunsUnique<T, K>(key: T -> K, s: seq<T>, runs: seq<seq<T>>)
    requires Flatten(runs) == s && Maximal(key, runs)
    ensures runs == Runs(key, s)
    decreases |s|
  {
    if runs != [] {
      var front, run := runs[..|runs| - 1], Last(runs);
      var init, shorter := s[..|s| - 1], run[..|run| - 1];
      assert runs == front + [run] && run == shorter + [Last(run)];
      assert s == Flatten(front) + run;
      if shorter == [] {
        assert init == Flatten(front);
        RunsUnique(key, init, front);
        assert front != [] ==> Last(Last(front)) == Last(front)[|Last(front)| - 1];
      } else {
        var cut := front + [shorter];
        assert cut[..|cut| - 1] == front && Last(cut) == shorter;
        assert init == Flatten(front) + shorter == Flatten(cut);
        RunsUnique(key, init, cut);
        assert key(Last(shorter)) == key(run[0]) == key(Last(run));
      }
    }
  }

  /** One more element joins the open run when it carries that run's key, else it opens one. */
  lemma RunsAppend<T, K>(key: T -> K, s: seq<T>, x: T)
    ensures s != [] ==> Runs(key, s) != [] && Uniform(key, Last(Runs(key, s)))
    ensures s != [] && key(Last(Runs(key, s))[0]) == key(x) ==>
              Runs(key, s + [x]) == Runs(key, s)[..|Runs(key, s)| - 1] + [Last(Runs(key, s)) + [x]]
    ensures s == [] || key(Last(Runs(key, s))[0]) != key(x) ==>
              Runs(key, s + [x]) == Runs(key, s) + [[x]]
  {
    assert (s + [x])[..|s|] == s && Last(s + [x]) == x;
    RunsAreMaximal(key, s);
    if s != [] {
      var run := Last(Runs(key, s));
      assert key(run[|run| - 1]) == key(run[0]);
    }
  }
}
