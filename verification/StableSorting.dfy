/** Stable sorting by a total preorder: the meaning of Python's `list.sort` and
    `sorted`, on which the materialization scripts rely. */
module StableSorting {

  /** A comparison that is total and transitive; ties are allowed. */
  ghost predicate TotalPreorder<T(!new)>(leq: (T, T) -> bool) {
    && (forall a, b :: leq(a, b) || leq(b, a))
    && (forall a, b, c :: leq(a, b) && leq(b, c) ==> leq(a, c))
  }

  ghost predicate Sorted<T>(leq: (T, T) -> bool, s: seq<T>) {
    forall i, j :: 0 <= i < j < |s| ==> leq(s[i], s[j])
  }

  /** The elements of `s` that tie with `x`, in their order in `s`. */
  ghost function Ties<T>(leq: (T, T) -> bool, x: T, s: seq<T>): seq<T> {
    if s == [] then []
    else (if leq(x, s[0]) && leq(s[0], x) then [s[0]] else []) + Ties(leq, x, s[1..])
  }

  /** Inserts `x`, which came before all of `s`, ahead of everything it ties with. */
  function Insert<T>(leq: (T, T) -> bool, x: T, s: seq<T>): seq<T> {
    if s == [] || leq(x, s[0]) then [x] + s else [s[0]] + Insert(leq, x, s[1..])
  }

  function StableSort<T>(leq: (T, T) -> bool, s: seq<T>): seq<T> {
    if s == [] then [] else Insert(leq, s[0], StableSort(leq, s[1..]))
  }

  lemma {:induction false} TiesConcat<T>(leq: (T, T) -> bool, x: T, s: seq<T>, t: seq<T>)
    ensures Ties(leq, x, s + t) == Ties(leq, x, s) + Ties(leq, x, t)
  {
    if s == [] {
      assert s + t == t;
    } else {
      assert (s + t)[1..] == s[1..] + t;
      TiesConcat(leq, x, s[1..], t);
    }
  }

  lemma {:induction false} TiesMember<T>(leq: (T, T) -> bool, x: T, s: seq<T>, y: T)
    ensures y in Ties(leq, x, s) <==> y in s && leq(x, y) && leq(y, x)
  {
    if s != [] {
      TiesMember(leq, x, s[1..], y);
      assert y in s <==> y == s[0] || y in s[1..];
    }
  }

  lemma {:induction false} NoTies<T>(leq: (T, T) -> bool, x: T, s: seq<T>)
    requires forall i :: 0 <= i < |s| ==> !(leq(x, s[i]) && leq(s[i], x))
    ensures Ties(leq, x, s) == []
  {
    if s != [] {
      NoTies(leq, x, s[1..]);
    }
  }

  lemma {:induction false} InsertMultiset<T>(leq: (T, T) -> bool, x: T, s: seq<T>)
    ensures multiset(Insert(leq, x, s)) == multiset{x} + multiset(s)
  {
    if s == [] || leq(x, s[0]) {
    } else {
      InsertMultiset(leq, x, s[1..]);
      assert s == [s[0]] + s[1..];
    }
  }

  lemma {:induction false} InsertSorted<T(!new)>(leq: (T, T) -> bool, x: T, s: seq<T>)
    requires TotalPreorder(leq) && Sorted(leq, s)
    ensures Sorted(leq, Insert(leq, x, s))
  {
    if s == [] {
    } else if leq(x, s[0]) {
      assert forall j :: 0 < j < |s| ==> leq(s[0], s[j]);
    } else {
      InsertSorted(leq, x, s[1..]);
      InsertMultiset(leq, x, s[1..]);
      var t := Insert(leq, x, s[1..]);
      forall j | 0 <= j < |t| ensures leq(s[0], t[j]) {
        assert t[j] in multiset(t);
        assert t[j] == x || t[j] in s[1..];
      }
    }
  }

  lemma {:induction false} InsertTies<T(!new)>(leq: (T, T) -> bool, x: T, s: seq<T>, y: T)
    requires TotalPreorder(leq)
    ensures Ties(leq, y, Insert(leq, x, s)) == Ties(leq, y, [x] + s)
  {
    if s != [] && !leq(x, s[0]) {
      InsertTies(leq, x, s[1..], y);
      var h, t := s[0], s[1..];
      assert s == [h] + t;
      assert ([h] + Insert(leq, x, t))[1..] == Insert(leq, x, t);
      assert ([x] + s)[1..] == s && ([x] + t)[1..] == t;
      // x and h are not tied, so at most one of them ties with y and the swap is invisible.
      assert !(leq(y, x) && leq(x, y) && leq(y, h) && leq(h, y));
    }
  }

  /** What `sorted` promises: ordered, a permutation, and ties keep their order. */
  lemma {:induction false} StableSortCorrect<T(!new)>(leq: (T, T) -> bool, s: seq<T>)
    requires TotalPreorder(leq)
    ensures Sorted(leq, StableSort(leq, s))
    ensures multiset(StableSort(leq, s)) == multiset(s)
    ensures forall x :: Ties(leq, x, StableSort(leq, s)) == Ties(leq, x, s)
  {
    if s != [] {
      var t := StableSort(leq, s[1..]);
      StableSortCorrect(leq, s[1..]);
      InsertSorted(leq, s[0], t);
      InsertMultiset(leq, s[0], t);
      assert s == [s[0]] + s[1..];
      forall x ensures Ties(leq, x, StableSort(leq, s)) == Ties(leq, x, s) {
        InsertTies(leq, s[0], t, x);
        assert ([s[0]] + t)[1..] == t;
      }
    }
  }

  /** Being sorted with given tie classes determines a sequence: there is one stable sort. */
  lemma {:induction false} StableSortUnique<T(!new)>(leq: (T, T) -> bool, s: seq<T>, t: seq<T>)
    requires TotalPreorder(leq) && Sorted(leq, s) && Sorted(leq, t)
    requires forall x :: Ties(leq, x, s) == Ties(leq, x, t)
    ensures s == t
  {
    if s == [] {
      if t != [] {
        HeadTies(leq, t);
        assert false;
      }
    } else {
      HeadsEqual(leq, s, t);
      forall x ensures Ties(leq, x, s[1..]) == Ties(leq, x, t[1..]) {
        var own := if leq(x, s[0]) && leq(s[0], x) then [s[0]] else [];
        assert Ties(leq, x, s) == Ties(leq, x, t);
        assert own + Ties(leq, x, s[1..]) == own + Ties(leq, x, t[1..]);
        assert (own + Ties(leq, x, s[1..]))[|own|..] == Ties(leq, x, s[1..]);
      }
      StableSortUnique(leq, s[1..], t[1..]);
      assert s == [s[0]] + s[1..] && t == [t[0]] + t[1..];
    }
  }

  lemma HeadsEqual<T(!new)>(leq: (T, T) -> bool, s: seq<T>, t: seq<T>)
    requires TotalPreorder(leq) && Sorted(leq, s) && Sorted(leq, t) && s != []
    requires forall x :: Ties(leq, x, s) == Ties(leq, x, t)
    ensures t != [] && s[0] == t[0]
  {
    HeadTies(leq, s);
    assert Ties(leq, s[0], t) != [];
    assert t != [];
    HeadTies(leq, t);
    TiesMember(leq, s[0], t, s[0]);
    TiesMember(leq, t[0], s, t[0]);
    assert s[0] in t && t[0] in s;
    assert leq(s[0], t[0]) && leq(t[0], s[0]);
    assert Ties(leq, s[0], t)[0] == t[0];
  }

  lemma HeadTies<T(!new)>(leq: (T, T) -> bool, s: seq<T>)
    requires TotalPreorder(leq) && s != []
    ensures Ties(leq, s[0], s) != [] && Ties(leq, s[0], s)[0] == s[0]
  {
    assert leq(s[0], s[0]);
  }

  /** Sorting what is sorted already changes nothing. */
  lemma SortedIsFixed<T(!new)>(leq: (T, T) -> bool, s: seq<T>)
    requires TotalPreorder(leq) && Sorted(leq, s)
    ensures StableSort(leq, s) == s
  {
    StableSortCorrect(leq, s);
    StableSortUnique(leq, StableSort(leq, s), s);
  }

  /** A last element that nothing exceeds is where sorting leaves it. */
  lemma GreatestStaysLast<T(!new)>(leq: (T, T) -> bool, s: seq<T>, x: T)
    requires TotalPreorder(leq) && forall y :: y in s ==> leq(y, x)
    ensures StableSort(leq, s + [x]) == StableSort(leq, s) + [x]
  {
    StableSortCorrect(leq, s);
    StableSortCorrect(leq, s + [x]);
    var t := StableSort(leq, s);
    forall i | 0 <= i < |t| ensures leq(t[i], x) {
      assert t[i] in multiset(t);
    }
    forall y ensures Ties(leq, y, t + [x]) == Ties(leq, y, StableSort(leq, s + [x])) {
      TiesConcat(leq, y, s, [x]);
      TiesConcat(leq, y, t, [x]);
    }
    StableSortUnique(leq, t + [x], StableSort(leq, s + [x]));
  }

  lemma SortMembers<T(!new)>(leq: (T, T) -> bool, s: seq<T>)
    requires TotalPreorder(leq)
    ensures |StableSort(leq, s)| == |s|
    ensures forall x :: x in StableSort(leq, s) <==> x in s
  {
    StableSortCorrect(leq, s);
    assert |multiset(StableSort(leq, s))| == |multiset(s)|;
    forall x ensures x in StableSort(leq, s) <==> x in s {
      assert x in multiset(StableSort(leq, s)) <==> x in multiset(s);
    }
  }

  /** An element that some other exceeds does not come last. */
  lemma ExceededIsNotLast<T(!new)>(leq: (T, T) -> bool, s: seq<T>, x: T, y: T) returns (i: int)
    requires TotalPreorder(leq) && x in s && y in s && !leq(y, x)
    ensures 0 <= i < |s| - 1 && |StableSort(leq, s)| == |s| && StableSort(leq, s)[i] == x
  {
    StableSortCorrect(leq, s);
    SortMembers(leq, s);
    var t := StableSort(leq, s);
    i :| 0 <= i < |t| && t[i] == x;
    var j :| 0 <= j < |t| && t[j] == y;
    assert leq(x, x);
  }
}
