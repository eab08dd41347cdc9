/** The structural comparison of scripts/verify_rust_core_migration.py: everything that is expected must be there,
    and objects may hold more. */
module SubsetDifferences {
  import opened Optional

  datatype Number = Finite(value: real) | Infinite(negative: bool) | NaN
  datatype Field = Field(key: string, value: Json)

  /** A decoded JSON value; an object keeps its fields in insertion order. */
  datatype Json =
    | Null
    | Bool(b: bool)
    | Num(n: Number)
    | Str(s: string)
    | Arr(items: seq<Json>)
    | Obj(fields: seq<Field>)

  /** The keys of every object are distinct, as a dictionary's are. */
  ghost predicate WellFormed(j: Json)
    decreases j
  {
    match j
    case Arr(items) => forall i :: 0 <= i < |items| ==> WellFormed(items[i])
    case Obj(fields) =>
      && (forall i, k :: 0 <= i < k < |fields| ==> fields[i].key != fields[k].key)
      && (forall i :: 0 <= i < |fields| ==> WellFormed(fields[i].value))
    case _ => true
  }

  function Get(fields: seq<Field>, key: string): Option<Json> {
    if fields == [] then None else if fields[0].key == key then Some(fields[0].value) else Get(fields[1..], key)
  }

  /** A boolean compares as the number 0 or 1. */
  function AsNumber(j: Json): Option<Number> {
    match j
    case Bool(b) => Some(Finite(if b then 1.0 else 0.0))
    case Num(n) => Some(n)
    case _ => None
  }

  /** Equality of values that are neither objects nor lists. */
  predicate LeafEqual(e: Json, a: Json) {
    if AsNumber(e).Some? && AsNumber(a).Some? then AsNumber(e) == AsNumber(a) && AsNumber(e) != Some(NaN) else e == a
  }

  /** Which leaves are equal: the same null, text or number, booleans being 0 and 1, and never a NaN. */
  lemma LeafEqualIff(e: Json, a: Json)
    ensures LeafEqual(Null, a) <==> a == Null
    ensures e.Str? ==> (LeafEqual(e, a) <==> a == Str(e.s))
    ensures e == Bool(true) ==> (LeafEqual(e, a) <==> a == Bool(true) || a == Num(Finite(1.0)))
    ensures e == Bool(false) ==> (LeafEqual(e, a) <==> a == Bool(false) || a == Num(Finite(0.0)))
    ensures e.Num? ==>
              (LeafEqual(e, a) <==> e.n != NaN && (a == e || (a.Bool? && e.n == Finite(if a.b then 1.0 else 0.0))))
  {
    match a
    case Null =>
    case Bool(b) =>
    case Num(n) =>
    case Str(s) =>
    case Arr(items) =>
    case Obj(fields) =>
  }

  // ---------------------------------------------------------------- the differences

  datatype Step = Key(key: string) | Index(index: nat)
  datatype Problem = NotAnObject | MissingKey(key: string) | NotAList | LengthMismatch(expected: nat, actual: nat)
                   | Unequal(e: Json, a: Json)
  datatype Difference = Difference(path: seq<Step>, problem: Problem)

  function Differences(path: seq<Step>, e: Json, a: Json): seq<Difference>
    decreases e, 1, 0
  {
    if e.Obj? then
      if !a.Obj? then [Difference(path, NotAnObject)] else FieldDifferences(path, e, a, |e.fields|)
    else if e.Arr? then
      if !a.Arr? then [Difference(path, NotAList)]
      else if |e.items| != |a.items| then [Difference(path, LengthMismatch(|e.items|, |a.items|))]
      else ItemDifferences(path, e, a, |e.items|)
    else if LeafEqual(e, a) then [] else [Difference(path, Unequal(e, a))]
  }

  /** What the field at `i` contributes. */
  function FieldDifference(path: seq<Step>, e: Json, a: Json, i: nat): seq<Difference>
    requires e.Obj? && a.Obj? && i < |e.fields|
    decreases e, 0, 0
  {
    var f := e.fields[i];
    match Get(a.fields, f.key)
    case None => [Difference(path, MissingKey(f.key))]
    case Some(v) => Differences(path + [Key(f.key)], f.value, v)
  }

  /** Those of the first `n` fields. */
  function FieldDifferences(path: seq<Step>, e: Json, a: Json, n: nat): seq<Difference>
    requires e.Obj? && a.Obj? && n <= |e.fields|
    decreases e, 0, n + 1
  {
    if n == 0 then [] else FieldDifferences(path, e, a, n - 1) + FieldDifference(path, e, a, n - 1)
  }

  /** Those of the first `n` items. */
  function ItemDifferences(path: seq<Step>, e: Json, a: Json, n: nat): seq<Difference>
    requires e.Arr? && a.Arr? && |e.items| == |a.items| && n <= |e.items|
    decreases e, 0, n + 1
  {
    if n == 0 then []
    else ItemDifferences(path, e, a, n - 1) + Differences(path + [Index(n - 1)], e.items[n - 1], a.items[n - 1])
  }

  method CollectDifferences(path: seq<Step>, e: Json, a: Json) returns (differences: seq<Difference>)
    ensures differences == Differences(path, e, a)
    decreases e
  {
    differences := [];
    if e.Obj? {
      if !a.Obj? {
        return [Difference(path, NotAnObject)];
      }
      for i := 0 to |e.fields|
        invariant differences == FieldDifferences(path, e, a, i)
      {
        var field := e.fields[i];
        var actual := Get(a.fields, field.key);
        if actual.None? {
          differences := differences + [Difference(path, MissingKey(field.key))];
        } else {
          var more := CollectDifferences(path + [Key(field.key)], field.value, actual.value);
          differences := differences + more;
        }
      }
      return;
    }
    if e.Arr? {
      if !a.Arr? {
        return [Difference(path, NotAList)];
      }
      if |e.items| != |a.items| {
        return [Difference(path, LengthMismatch(|e.items|, |a.items|))];
      }
      for i := 0 to |e.items|
        invariant differences == ItemDifferences(path, e, a, i)
      {
        var more := CollectDifferences(path + [Index(i)], e.items[i], a.items[i]);
        differences := differences + more;
      }
      return;
    }
    if !LeafEqual(e, a) {
      differences := differences + [Difference(path, Unequal(e, a))];
    }
  }

  // ---------------------------------------------------------------- empty exactly for the subset relation

  /** Everything in `e` is in `a`: objects may have further keys, lists and leaves must match. */
  ghost predicate Subset(e: Json, a: Json)
    decreases e
  {
    match e
    case Obj(fields) => a.Obj? && forall i :: 0 <= i < |fields| ==> FieldWithin(fields[i], a)
    case Arr(items) => a.Arr? && |items| == |a.items| && forall i :: 0 <= i < |items| ==> Subset(items[i], a.items[i])
    case _ => LeafEqual(e, a)
  }

  ghost predicate FieldWithin(f: Field, a: Json)
    requires a.Obj?
    decreases f
  {
    match Get(a.fields, f.key)
    case None => false
    case Some(v) => Subset(f.value, v)
  }

  lemma {:induction false} EmptyIffSubset(path: seq<Step>, e: Json, a: Json)
    ensures Differences(path, e, a) == [] <==> Subset(e, a)
    decreases e, 1, 0
  {
    if e.Obj? && a.Obj? {
      FieldsEmptyIff(path, e, a, |e.fields|);
    } else if e.Arr? && a.Arr? && |e.items| == |a.items| {
      ItemsEmptyIff(path, e, a, |e.items|);
    }
  }

  lemma {:induction false} FieldsEmptyIff(path: seq<Step>, e: Json, a: Json, n: nat)
    requires e.Obj? && a.Obj? && n <= |e.fields|
    ensures FieldDifferences(path, e, a, n) == [] <==> forall i :: 0 <= i < n ==> FieldWithin(e.fields[i], a)
    decreases e, 0, n
  {
    if n > 0 {
      FieldsEmptyIff(path, e, a, n - 1);
      var f := e.fields[n - 1];
      var v := Get(a.fields, f.key);
      if v.Some? {
        EmptyIffSubset(path + [Key(f.key)], f.value, v.value);
      }
    }
  }

  lemma {:induction false} ItemsEmptyIff(path: seq<Step>, e: Json, a: Json, n: nat)
    requires e.Arr? && a.Arr? && |e.items| == |a.items| && n <= |e.items|
    ensures ItemDifferences(path, e, a, n) == [] <==> forall i :: 0 <= i < n ==> Subset(e.items[i], a.items[i])
    decreases e, 0, n
  {
    if n > 0 {
      ItemsEmptyIff(path, e, a, n - 1);
      EmptyIffSubset(path + [Index(n - 1)], e.items[n - 1], a.items[n - 1]);
    }
  }

  // ---------------------------------------------------------------- a partial order

  ghost predicate HasNaN(j: Json)
    decreases j
  {
    match j
    case Num(n) => n.NaN?
    case Arr(items) => exists i :: 0 <= i < |items| && HasNaN(items[i])
    case Obj(fields) => exists i :: 0 <= i < |fields| && HasNaN(fields[i].value)
    case _ => false
  }

  /** Python's equality of decoded values: the order of keys does not matter, booleans are numbers. */
  ghost predicate Same(x: Json, y: Json)
    decreases x
  {
    match x
    case Obj(fields) =>
      && y.Obj?
      && (forall i :: 0 <= i < |fields| ==> FieldSame(fields[i], y))
      && (forall i :: 0 <= i < |y.fields| ==> Get(x.fields, y.fields[i].key).Some?)
    case Arr(items) => y.Arr? && |items| == |y.items| && forall i :: 0 <= i < |items| ==> Same(items[i], y.items[i])
    case _ => LeafEqual(x, y)
  }

  ghost predicate FieldSame(f: Field, y: Json)
    requires y.Obj?
    decreases f
  {
    match Get(y.fields, f.key)
    case None => false
    case Some(v) => Same(f.value, v)
  }

  lemma {:induction false} GetFinds(fields: seq<Field>, key: string) returns (i: nat)
    requires Get(fields, key).Some?
    ensures i < |fields| && fields[i].key == key && fields[i].value == Get(fields, key).value
  {
    if fields[0].key == key {
      i := 0;
    } else {
      i := GetFinds(fields[1..], key);
      i := i + 1;
    }
  }

  lemma {:induction false} GetDistinct(fields: seq<Field>, i: nat)
    requires i < |fields| && forall i, k :: 0 <= i < k < |fields| ==> fields[i].key != fields[k].key
    ensures Get(fields, fields[i].key) == Some(fields[i].value)
  {
    if i > 0 {
      GetDistinct(fields[1..], i - 1);
    }
  }

  /** A value is within itself exactly when no number in it is NaN. */
  lemma {:induction false} ReflexiveIff(j: Json)
    requires WellFormed(j)
    ensures Subset(j, j) <==> !HasNaN(j)
    decreases j
  {
    match j
    case Arr(items) =>
      forall i | 0 <= i < |items|
        ensures Subset(items[i], items[i]) <==> !HasNaN(items[i])
      {
        ReflexiveIff(items[i]);
      }
    case Obj(fields) =>
      forall i | 0 <= i < |fields|
        ensures FieldWithin(fields[i], j) <==> !HasNaN(fields[i].value)
      {
        GetDistinct(fields, i);
        ReflexiveIff(fields[i].value);
      }
    case _ =>
  }

  /** A list that holds a NaN is reported to differ from itself. */
  lemma NaNDiffersFromItself()
    ensures Differences([], Arr([Num(NaN)]), Arr([Num(NaN)])) == [Difference([Index(0)], Unequal(Num(NaN), Num(NaN)))]
  {
    var list := Arr([Num(NaN)]);
    assert ItemDifferences([], list, list, 0) == [];
    assert [] + [Index(0)] == [Index(0)];
    assert Differences([Index(0)], Num(NaN), Num(NaN)) == [Difference([Index(0)], Unequal(Num(NaN), Num(NaN)))];
    assert ItemDifferences([], list, list, 1) == [] + Differences([Index(0)], list.items[0], list.items[0]);
  }

  lemma {:induction false} Transitive(x: Json, y: Json, z: Json)
    requires Subset(x, y) && Subset(y, z)
    ensures Subset(x, z)
    decreases x
  {
    match x
    case Arr(items) =>
      forall i | 0 <= i < |items|
        ensures Subset(items[i], z.items[i])
      {
        Transitive(items[i], y.items[i], z.items[i]);
      }
    case Obj(fields) =>
      forall i | 0 <= i < |fields|
        ensures FieldWithin(fields[i], z)
      {
        var f := fields[i];
        assert FieldWithin(f, y);
        var k := GetFinds(y.fields, f.key);
        assert FieldWithin(y.fields[k], z);
        Transitive(f.value, y.fields[k].value, Get(z.fields, f.key).value);
      }
    case _ =>
  }

  /** Two values are within each other exactly when they are equal. */
  lemma {:induction false} AntisymmetricIff(x: Json, y: Json)
    requires WellFormed(x) && WellFormed(y)
    ensures Subset(x, y) && Subset(y, x) <==> Same(x, y)
    decreases x
  {
    if x.Arr? && y.Arr? && |x.items| == |y.items| {
      forall i | 0 <= i < |x.items|
        ensures Subset(x.items[i], y.items[i]) && Subset(y.items[i], x.items[i]) <==> Same(x.items[i], y.items[i])
      {
        AntisymmetricIff(x.items[i], y.items[i]);
      }
    } else if x.Obj? && y.Obj? {
      ObjectsAntisymmetric(x, y);
    }
  }

  lemma {:induction false} ObjectsAntisymmetric(x: Json, y: Json)
    requires WellFormed(x) && WellFormed(y) && x.Obj? && y.Obj?
    ensures Subset(x, y) && Subset(y, x) <==> Same(x, y)
    decreases x, 0
  {
    if Subset(x, y) && Subset(y, x) {
      forall i | 0 <= i < |x.fields|
        ensures FieldSame(x.fields[i], y)
      {
        var k := Counterpart(x, y, i);
        assert FieldWithin(y.fields[k], x);
        AntisymmetricIff(x.fields[i].value, y.fields[k].value);
      }
      forall k | 0 <= k < |y.fields|
        ensures Get(x.fields, y.fields[k].key).Some?
      {
        assert FieldWithin(y.fields[k], x);
      }
    }
    if Same(x, y) {
      forall i | 0 <= i < |x.fields|
        ensures FieldWithin(x.fields[i], y)
      {
        assert FieldSame(x.fields[i], y);
        var k := GetFinds(y.fields, x.fields[i].key);
        AntisymmetricIff(x.fields[i].value, y.fields[k].value);
      }
      forall k | 0 <= k < |y.fields|
        ensures FieldWithin(y.fields[k], x)
      {
        var i := GetFinds(x.fields, y.fields[k].key);
        assert FieldSame(x.fields[i], y);
        GetDistinct(y.fields, k);
        AntisymmetricIff(x.fields[i].value, y.fields[k].value);
      }
    }
  }

  /** Where the field at `i` of `x` is in `y`, and that it is found from there again. */
  lemma {:induction false} Counterpart(x: Json, y: Json, i: nat) returns (k: nat)
    requires WellFormed(x) && x.Obj? && y.Obj? && i < |x.fields| && FieldWithin(x.fields[i], y)
    ensures k < |y.fields| && y.fields[k].key == x.fields[i].key
    ensures Get(y.fields, x.fields[i].key) == Some(y.fields[k].value) && Subset(x.fields[i].value, y.fields[k].value)
    ensures Get(x.fields, y.fields[k].key) == Some(x.fields[i].value)
  {
    k := GetFinds(y.fields, x.fields[i].key);
    GetDistinct(x.fields, i);
  }

  // ---------------------------------------------------------------- every fault is reported, once, and nothing else

  /** The pair of values found by walking down both sides together. */
  ghost function Walk(e: Json, a: Json, steps: seq<Step>): Option<(Json, Json)>
    decreases |steps|
  {
    if steps == [] then Some((e, a))
    else
      match steps[0]
      case Key(k) =>
        if e.Obj? && a.Obj? && Get(e.fields, k).Some? && Get(a.fields, k).Some?
        then Walk(Get(e.fields, k).value, Get(a.fields, k).value, steps[1..]) else None
      case Index(i) =>
        if e.Arr? && a.Arr? && |e.items| == |a.items| && i < |e.items|
        then Walk(e.items[i], a.items[i], steps[1..]) else None
  }

  /** The problem is one of this pair itself. */
  ghost predicate Fault(e: Json, a: Json, problem: Problem) {
    match problem
    case NotAnObject => e.Obj? && !a.Obj?
    case MissingKey(k) => e.Obj? && a.Obj? && Get(e.fields, k).Some? && Get(a.fields, k).None?
    case NotAList => e.Arr? && !a.Arr?
    case LengthMismatch(n, m) => e.Arr? && a.Arr? && n == |e.items| && m == |a.items| && n != m
    case Unequal(x, y) => !e.Obj? && !e.Arr? && x == e && y == a && !LeafEqual(e, a)
  }

  ghost predicate FaultAt(path: seq<Step>, e: Json, a: Json, d: Difference) {
    path <= d.path && match Walk(e, a, d.path[|path|..])
                      case None => false
                      case Some((x, y)) => Fault(x, y, d.problem)
  }

  /** The fault lies in the item at `i`. */
  ghost predicate FaultInItem(path: seq<Step>, e: Json, a: Json, d: Difference, i: nat)
    requires e.Arr? && a.Arr? && |e.items| == |a.items| && i < |e.items|
  {
    FaultAt(path + [Index(i)], e.items[i], a.items[i], d)
  }

  /** The fault is that the field at `i` is missing, or lies in its value. */
  ghost predicate FaultInField(path: seq<Step>, e: Json, a: Json, d: Difference, i: nat)
    requires e.Obj? && a.Obj? && i < |e.fields|
  {
    var f := e.fields[i];
    match Get(a.fields, f.key)
    case None => d == Difference(path, MissingKey(f.key))
    case Some(v) => FaultAt(path + [Key(f.key)], f.value, v, d)
  }

  /** Walking one step first and the rest from there. */
  lemma WalkFrom(path: seq<Step>, step: Step, d: Difference)
    requires path + [step] <= d.path
    ensures path <= d.path && d.path[|path|..] != [] && d.path[|path|..][0] == step
    ensures d.path[|path|..][1..] == d.path[|path + [step]|..]
  {
  }

  lemma SplitPath(path: seq<Step>, d: Difference)
    requires path <= d.path && d.path != path
    ensures path + [d.path[|path|]] <= d.path
  {
  }

  lemma FaultBelowItems(path: seq<Step>, e: Json, a: Json, d: Difference)
    requires e.Arr? && a.Arr? && |e.items| == |a.items|
    ensures FaultAt(path, e, a, d) <==> exists i :: 0 <= i < |e.items| && FaultInItem(path, e, a, d, i)
  {
    forall i | 0 <= i < |e.items| && FaultInItem(path, e, a, d, i)
      ensures FaultAt(path, e, a, d)
    {
      WalkFrom(path, Index(i), d);
    }
    if FaultAt(path, e, a, d) {
      assert d.path != path;
      SplitPath(path, d);
      WalkFrom(path, d.path[|path|], d);
      assert FaultInItem(path, e, a, d, d.path[|path|].index);
    }
  }

  lemma FaultBelowFields(path: seq<Step>, e: Json, a: Json, d: Difference)
    requires WellFormed(e) && e.Obj? && a.Obj?
    ensures FaultAt(path, e, a, d) <==> exists i :: 0 <= i < |e.fields| && FaultInField(path, e, a, d, i)
  {
    forall i | 0 <= i < |e.fields| && FaultInField(path, e, a, d, i)
      ensures FaultAt(path, e, a, d)
    {
      GetDistinct(e.fields, i);
      var v := Get(a.fields, e.fields[i].key);
      if v.Some? {
        WalkFrom(path, Key(e.fields[i].key), d);
      } else {
        assert d.path[|path|..] == [];
      }
    }
    if FaultAt(path, e, a, d) {
      if d.path == path {
        assert d.path[|path|..] == [];
        var i := GetFinds(e.fields, d.problem.key);
        assert FaultInField(path, e, a, d, i);
      } else {
        SplitPath(path, d);
        WalkFrom(path, d.path[|path|], d);
        var i := GetFinds(e.fields, d.path[|path|].key);
        assert FaultInField(path, e, a, d, i);
      }
    }
  }

  /** A difference is listed exactly when walking its path down both sides ends at a pair with that fault. */
  lemma {:induction false} ReportedIff(path: seq<Step>, e: Json, a: Json, d: Difference)
    requires WellFormed(e)
    ensures d in Differences(path, e, a) <==> FaultAt(path, e, a, d)
    decreases e, 1, 0
  {
    if e.Obj? && a.Obj? {
      FieldsReported(path, e, a, d, |e.fields|);
      FaultBelowFields(path, e, a, d);
    } else if e.Arr? && a.Arr? && |e.items| == |a.items| {
      ItemsReported(path, e, a, d, |e.items|);
      FaultBelowItems(path, e, a, d);
    } else if path <= d.path {
      NothingBelow(path, e, a, d);
    }
  }

  /** A pair that is not walked into has at most its own fault. */
  lemma NothingBelow(path: seq<Step>, e: Json, a: Json, d: Difference)
    requires path <= d.path && !(e.Obj? && a.Obj?) && !(e.Arr? && a.Arr? && |e.items| == |a.items|)
    ensures FaultAt(path, e, a, d) <==> d.path == path && Fault(e, a, d.problem)
  {
    if d.path == path {
      assert d.path[|path|..] == [];
    }
  }

  lemma {:induction false} FieldReported(path: seq<Step>, e: Json, a: Json, d: Difference, i: nat)
    requires WellFormed(e) && e.Obj? && a.Obj? && i < |e.fields|
    ensures d in FieldDifference(path, e, a, i) <==> FaultInField(path, e, a, d, i)
    decreases e, 0, 0
  {
    var f := e.fields[i];
    var v := Get(a.fields, f.key);
    if v.Some? {
      ReportedIff(path + [Key(f.key)], f.value, v.value, d);
    }
  }

  lemma {:induction false} FieldsReported(path: seq<Step>, e: Json, a: Json, d: Difference, n: nat)
    requires WellFormed(e) && e.Obj? && a.Obj? && n <= |e.fields|
    ensures d in FieldDifferences(path, e, a, n) <==> exists i :: 0 <= i < n && FaultInField(path, e, a, d, i)
    decreases e, 0, n + 1
  {
    if n > 0 {
      FieldsReported(path, e, a, d, n - 1);
      FieldReported(path, e, a, d, n - 1);
    }
  }

  lemma {:induction false} ItemsReported(path: seq<Step>, e: Json, a: Json, d: Difference, n: nat)
    requires WellFormed(e) && e.Arr? && a.Arr? && |e.items| == |a.items| && n <= |e.items|
    ensures d in ItemDifferences(path, e, a, n) <==> exists i :: 0 <= i < n && FaultInItem(path, e, a, d, i)
    decreases e, 0, n + 1
  {
    if n > 0 {
      ItemsReported(path, e, a, d, n - 1);
      ReportedIff(path + [Index(n - 1)], e.items[n - 1], a.items[n - 1], d);
      assert d in Differences(path + [Index(n - 1)], e.items[n - 1], a.items[n - 1])
        <==> FaultInItem(path, e, a, d, n - 1);
    }
  }

  ghost predicate NoRepeats(ds: seq<Difference>) {
    forall i, k :: 0 <= i < k < |ds| ==> ds[i] != ds[k]
  }

  lemma AppendNoRepeats(xs: seq<Difference>, ys: seq<Difference>)
    requires NoRepeats(xs) && NoRepeats(ys) && forall d :: d in xs ==> d !in ys
    ensures NoRepeats(xs + ys)
  {
    forall i, k | 0 <= i < k < |xs + ys|
      ensures (xs + ys)[i] != (xs + ys)[k]
    {
      if i < |xs| <= k {
        assert xs[i] in xs && ys[k - |xs|] in ys;
      }
    }
  }

  /** No difference is listed twice. */
  lemma {:induction false} ReportedOnce(path: seq<Step>, e: Json, a: Json)
    requires WellFormed(e)
    ensures NoRepeats(Differences(path, e, a))
    decreases e, 1, 0
  {
    if e.Obj? && a.Obj? {
      FieldsReportedOnce(path, e, a, |e.fields|);
    } else if e.Arr? && a.Arr? && |e.items| == |a.items| {
      ItemsReportedOnce(path, e, a, |e.items|);
    }
  }

  /** A fault in a field names the field's key: as the missing key or as the next step of its path. */
  lemma FaultStart(path: seq<Step>, e: Json, a: Json, d: Difference, i: nat)
    requires e.Obj? && a.Obj? && i < |e.fields| && FaultInField(path, e, a, d, i)
    ensures if d.path == path then d.problem == MissingKey(e.fields[i].key)
            else path < d.path && d.path[|path|] == Key(e.fields[i].key)
  {
    if Get(a.fields, e.fields[i].key).Some? {
      WalkFrom(path, Key(e.fields[i].key), d);
    }
  }

  /** Two fields do not share a fault, their keys being different. */
  lemma FieldsApart(path: seq<Step>, e: Json, a: Json, d: Difference, i: nat, k: nat)
    requires WellFormed(e) && e.Obj? && a.Obj? && i < k < |e.fields|
    requires FaultInField(path, e, a, d, i)
    ensures !FaultInField(path, e, a, d, k)
  {
    FaultStart(path, e, a, d, i);
    if FaultInField(path, e, a, d, k) {
      FaultStart(path, e, a, d, k);
    }
  }

  lemma {:induction false} FieldsReportedOnce(path: seq<Step>, e: Json, a: Json, n: nat)
    requires WellFormed(e) && e.Obj? && a.Obj? && n <= |e.fields|
    ensures NoRepeats(FieldDifferences(path, e, a, n))
    decreases e, 0, n
  {
    if n > 0 {
      FieldsReportedOnce(path, e, a, n - 1);
      var f := e.fields[n - 1];
      var v := Get(a.fields, f.key);
      if v.Some? {
        ReportedOnce(path + [Key(f.key)], f.value, v.value);
      }
      var last := FieldDifference(path, e, a, n - 1);
      forall d | d in FieldDifferences(path, e, a, n - 1)
        ensures d !in last
      {
        FieldsReported(path, e, a, d, n - 1);
        FieldReported(path, e, a, d, n - 1);
        var i: nat :| i < n - 1 && FaultInField(path, e, a, d, i);
        FieldsApart(path, e, a, d, i, n - 1);
      }
      AppendNoRepeats(FieldDifferences(path, e, a, n - 1), last);
    }
  }

  lemma {:induction false} ItemsReportedOnce(path: seq<Step>, e: Json, a: Json, n: nat)
    requires WellFormed(e) && e.Arr? && a.Arr? && |e.items| == |a.items| && n <= |e.items|
    ensures NoRepeats(ItemDifferences(path, e, a, n))
    decreases e, 0, n
  {
    if n > 0 {
      ItemsReportedOnce(path, e, a, n - 1);
      var last := Differences(path + [Index(n - 1)], e.items[n - 1], a.items[n - 1]);
      ReportedOnce(path + [Index(n - 1)], e.items[n - 1], a.items[n - 1]);
      forall d | d in ItemDifferences(path, e, a, n - 1)
        ensures d !in last
      {
        ItemsReported(path, e, a, d, n - 1);
        ReportedIff(path + [Index(n - 1)], e.items[n - 1], a.items[n - 1], d);
        var i: nat :| i < n - 1 && FaultInItem(path, e, a, d, i);
        WalkFrom(path, Index(i), d);
        if d in last {
          WalkFrom(path, Index(n - 1), d);
        }
      }
      AppendNoRepeats(ItemDifferences(path, e, a, n - 1), last);
    }
  }
}
