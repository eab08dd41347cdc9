/** Exactly when the momentum strategy keeps its total exposure within the cap, in spite of the dead band:
    strategies/research/precious_metal_tsmom_vol.py. */
module ExposureCap {
  import opened Optional
  import opened Reals
  import opened TsmomTargets

  /** After every sequence of rebalances the total exposure is within the cap. */
  ghost predicate CapKept(c: Config, n: nat)
    requires ValidConfig(c)
  {
    forall rounds :: Fits(n, rounds) ==> SumAbs(Position(c, n, rounds)) <= c.cap
  }

  /** Symbols that hold a larger share stay there when more join: two levels closer than the threshold, of which
      the smaller can still be entered. */
  ghost predicate Crowds(c: Config, n: nat)
    requires c.cap > 0.0
  {
    exists k': nat, k: nat :: CrowdedBy(c, n, k', k)
  }

  ghost predicate CrowdedBy(c: Config, n: nat, k': nat, k: nat)
    requires c.cap > 0.0
  {
    1 <= k' < k <= n && c.threshold <= Level(c, k) < Level(c, k') < Level(c, k) + c.threshold
  }

  /** Symbols can be left at a level too small to be closed: the smallest level is below the threshold and can be
      reached from the largest, directly or by changing sides. */
  ghost predicate Parks(c: Config, n: nat)
    requires c.cap > 0.0
  {
    Level(c, n) < c.threshold <= Level(c, 1) && (Level(c, 1) - Level(c, n) >= c.threshold || c.allowShort)
  }

  // ---------------------------------------------------------------- levels

  lemma {:induction false} TimesSplit(a: nat, b: nat, x: real)
    ensures Times(a + b, x) == Times(a, x) + Times(b, x)
  {
    if b > 0 {
      TimesSplit(a, b - 1, x);
    }
  }

  lemma {:induction false} TimesStrict(k: nat, x: real, y: real)
    requires x < y && k > 0
    ensures Times(k, x) < Times(k, y)
  {
    if k > 1 {
      TimesStrict(k - 1, x, y);
    }
  }

  /** A level is positive and at most the quantity; above the cap it is less. */
  lemma LevelBounds(c: Config, k: nat)
    requires ValidConfig(c)
    ensures 0.0 < Level(c, k) <= c.quantity
    ensures Level(c, k) < c.quantity <==> Times(k, c.quantity) > c.cap
    ensures Level(c, k) < c.quantity ==> k > 0 && Times(k, Level(c, k)) == c.cap
  {
    if Times(k, c.quantity) > c.cap {
      EqualShare(c, k);
      if Level(c, k) >= c.quantity {
        if Level(c, k) > c.quantity {
          TimesStrict(k, c.quantity, Level(c, k));
        }
      }
      if Level(c, k) <= 0.0 {
        TimesStrictOrZero(k, Level(c, k));
      }
    }
  }

  lemma {:induction false} TimesStrictOrZero(k: nat, x: real)
    requires x <= 0.0
    ensures Times(k, x) <= 0.0
  {
    if k > 0 {
      TimesStrictOrZero(k - 1, x);
    }
  }

  /** More active symbols never get a larger share. */
  lemma LevelsDescend(c: Config, k': nat, k: nat)
    requires ValidConfig(c) && 1 <= k' <= k
    ensures Level(c, k) <= Level(c, k')
  {
    LevelBounds(c, k);
    LevelBounds(c, k');
    if Level(c, k') < Level(c, k) {
      TimesSplit(k', k - k', Level(c, k));
      TimesNonNegative(k - k', Level(c, k));
      TimesStrict(k', Level(c, k'), Level(c, k));
    }
  }

  // ---------------------------------------------------------------- totals

  /** A total of two blocks of equal magnitudes. */
  lemma {:induction false} TwoBlocks(xs: seq<real>, j: nat, x: real, y: real)
    requires j <= |xs|
    requires forall i :: 0 <= i < |xs| ==> Abs(xs[i]) == if i < j then x else y
    ensures SumAbs(xs) == Times(j, x) + Times(|xs| - j, y)
  {
    if xs != [] {
      var n := |xs| - 1;
      TwoBlocks(xs[..n], if j <= n then j else n, x, y);
    }
  }

  lemma {:induction false} PrefixTotal(xs: seq<real>, k: nat)
    requires k <= |xs|
    ensures SumAbs(xs[..k]) <= SumAbs(xs)
  {
    if k < |xs| {
      PrefixTotal(xs[..|xs| - 1], k);
      assert xs[..|xs| - 1][..k] == xs[..k];
    } else {
      assert xs[..k] == xs;
    }
  }

  lemma {:induction false} SmallerTotal(xs: seq<real>, ys: seq<real>)
    requires |xs| == |ys| && forall i :: 0 <= i < |xs| ==> Abs(xs[i]) <= Abs(ys[i])
    ensures SumAbs(xs) <= SumAbs(ys)
  {
    if xs != [] {
      SmallerTotal(xs[..|xs| - 1], ys[..|ys| - 1]);
    }
  }

  // ---------------------------------------------------------------- runs that exceed the cap

  /** `x` is kept where `y` is wanted, and `y` is entered. */
  lemma CrowdedTotal(c: Config, k': nat, k: nat, x: real, y: real, first: seq<real>, second: seq<real>)
    requires 0 < k' < k <= |first| == |second| && 0.0 < y && c.threshold <= y < x < y + c.threshold
    requires forall i :: 0 <= i < |first| ==> first[i] == if i < k' then x else 0.0
    requires forall i :: 0 <= i < |first| ==> second[i] == if i < k then y else 0.0
    ensures SumAbs(Applied(c, Applied(c, Flat(|first|), first), second)) > Times(k, y)
  {
    var p := Applied(c, Flat(|first|), first);
    assert p == first;
    var q := Applied(c, p, second);
    PrefixTotal(q, k);
    TwoBlocks(q[..k], k', x, y);
    TimesSplit(k', k - k', y);
    TimesStrict(k', y, x);
  }

  /** `k'` symbols enter, then `k`: the first keep their larger share. */
  lemma CrowdingExceeds(c: Config, n: nat, k': nat, k: nat)
    requires ValidConfig(c) && CrowdedBy(c, n, k', k)
    ensures var rounds := [Asking(c, n, 0, k', 1), Asking(c, n, 0, k, 1)];
            Fits(n, rounds) && SumAbs(Position(c, n, rounds)) > c.cap
  {
    var first, second := Asking(c, n, 0, k', 1), Asking(c, n, 0, k, 1);
    AskingGets(c, n, 0, k', 1);
    AskingGets(c, n, 0, k, 1);
    OneMoreRound(c, n, [], first);
    OneMoreRound(c, n, [first], second);
    assert [first, second] == [first] + [second] && [first] == [] + [first];
    LevelBounds(c, k);
    LevelBounds(c, k');
    CrowdedTotal(c, k', k, Level(c, k'), Level(c, k), Targets(c, first), Targets(c, second));
  }

  /** The side on which a symbol can be moved from the largest level to the smallest. */
  ghost function ParkingSide(c: Config, n: nat): int
    requires c.cap > 0.0
  {
    if Level(c, 1) - Level(c, n) >= c.threshold then 1 else -1
  }

  /** Symbols 1 to `j`, one after the other: enter alone, then let all symbols be asked for. */
  ghost function Parking(c: Config, n: nat, j: nat): seq<seq<Signal>>
    requires c.cap > 0.0
  {
    if j == 0 then []
    else Parking(c, n, j - 1) + [Asking(c, n, j, 1, 1)] + [Asking(c, n, 0, n, ParkingSide(c, n))]
  }

  /** Symbols 1 to `j` are parked at `x`, the others are flat. */
  ghost predicate Parked(n: nat, j: nat, x: real, position: seq<real>) {
    |position| == n && forall i :: 0 <= i < n ==> position[i] == if 1 <= i <= j then x else 0.0
  }

  /** Where the parked symbols stand. */
  ghost function Spot(c: Config, n: nat): real
    requires c.cap > 0.0
  {
    Signed(ParkingSide(c, n), Level(c, n))
  }

  /** Too small to be closed or entered, and reached from `top`. */
  ghost predicate IsSpot(c: Config, x: real, top: real) {
    0.0 < Abs(x) < c.threshold <= top && Abs(x - top) >= c.threshold
  }

  lemma SpotIsSpot(c: Config, n: nat)
    requires ValidConfig(c) && Parks(c, n)
    ensures IsSpot(c, Spot(c, n), Level(c, 1)) && Abs(Spot(c, n)) == Level(c, n)
  {
    LevelBounds(c, n);
  }

  lemma ParkStep(c: Config, n: nat, j: nat, x: real, top: real, before: seq<real>, alone: seq<real>, all: seq<real>)
    requires 0 < j < n && IsSpot(c, x, top) && Parked(n, j - 1, x, before) && |alone| == |all| == n
    requires forall i :: 0 <= i < n ==> alone[i] == (if i == j then top else 0.0) && all[i] == x
    ensures Parked(n, j, x, Applied(c, Applied(c, before, alone), all))
  {
    var p := Applied(c, before, alone);
    assert forall i :: 0 <= i < n ==> p[i] == if i == j then top else before[i];
  }

  lemma ParkingTargets(c: Config, n: nat, j: nat)
    requires ValidConfig(c) && Parks(c, n) && 0 < j < n
    ensures var alone, all := Targets(c, Asking(c, n, j, 1, 1)), Targets(c, Asking(c, n, 0, n, ParkingSide(c, n)));
            && |alone| == |all| == n
            && (forall i :: 0 <= i < n ==> alone[i] == if i == j then Level(c, 1) else 0.0)
            && (forall i :: 0 <= i < n ==> all[i] == Spot(c, n))
  {
    AskingGets(c, n, j, 1, 1);
    AskingGets(c, n, 0, n, ParkingSide(c, n));
  }

  lemma ParkOne(c: Config, n: nat, j: nat, rounds: seq<seq<Signal>>)
    requires ValidConfig(c) && Parks(c, n) && 0 < j < n
    requires Fits(n, rounds) && Parked(n, j - 1, Spot(c, n), Position(c, n, rounds))
    ensures var more := rounds + [Asking(c, n, j, 1, 1)] + [Asking(c, n, 0, n, ParkingSide(c, n))];
            Fits(n, more) && Parked(n, j, Spot(c, n), Position(c, n, more))
  {
    var alone, all := Asking(c, n, j, 1, 1), Asking(c, n, 0, n, ParkingSide(c, n));
    OneMoreRound(c, n, rounds, alone);
    OneMoreRound(c, n, rounds + [alone], all);
    ParkingTargets(c, n, j);
    SpotIsSpot(c, n);
    ParkStep(c, n, j, Spot(c, n), Level(c, 1), Position(c, n, rounds), Targets(c, alone), Targets(c, all));
  }

  lemma {:induction false} ParkingParks(c: Config, n: nat, j: nat)
    requires ValidConfig(c) && Parks(c, n) && j < n
    ensures Fits(n, Parking(c, n, j)) && Parked(n, j, Spot(c, n), Position(c, n, Parking(c, n, j)))
  {
    if j > 0 {
      ParkingParks(c, n, j - 1);
      ParkOne(c, n, j, Parking(c, n, j - 1));
    }
  }

  lemma ParkedTotal(c: Config, n: nat, x: real, top: real, before: seq<real>, last: seq<real>)
    requires n > 0 && IsSpot(c, x, top) && Parked(n, n - 1, x, before) && |last| == n
    requires forall i :: 0 <= i < n ==> last[i] == if i == 0 then top else 0.0
    ensures SumAbs(Applied(c, before, last)) == Times(n, Abs(x)) + top - Abs(x)
  {
    TwoBlocks(Applied(c, before, last), 1, top, Abs(x));
    TimesSplit(1, n - 1, Abs(x));
    assert Times(1, top) == top && Times(1, Abs(x)) == Abs(x);
  }

  /** With all other symbols parked, one more enters. */
  lemma ParkingExceeds(c: Config, n: nat)
    requires ValidConfig(c) && Parks(c, n)
    ensures n > 1
    ensures var rounds := Parking(c, n, n - 1) + [Asking(c, n, 0, 1, 1)];
            Fits(n, rounds) && SumAbs(Position(c, n, rounds)) > c.cap
  {
    LevelBounds(c, 1);
    LevelBounds(c, n);
    var before, last := Parking(c, n, n - 1), Asking(c, n, 0, 1, 1);
    ParkingParks(c, n, n - 1);
    AskingGets(c, n, 0, 1, 1);
    OneMoreRound(c, n, before, last);
    SpotIsSpot(c, n);
    ParkedTotal(c, n, Spot(c, n), Level(c, 1), Position(c, n, before), Targets(c, last));
  }

  // ---------------------------------------------------------------- runs that cannot

  /** Below the threshold nothing is ever entered. */
  lemma {:induction false} NothingEntered(c: Config, n: nat, rounds: seq<seq<Signal>>)
    requires ValidConfig(c) && Fits(n, rounds) && Level(c, 1) < c.threshold
    ensures Position(c, n, rounds) == Flat(n)
  {
    if rounds != [] {
      NothingEntered(c, n, rounds[..|rounds| - 1]);
      forall i | 0 <= i < n ensures |Wanted(c, n, rounds)| == n && Position(c, n, rounds)[i] == 0.0 {
        var k, side := WantedIsPossible(c, n, rounds, i);
        LevelBounds(c, k);
        if k > 0 {
          LevelsDescend(c, 1, k);
        }
      }
    }
  }

  /** When every level can be entered and none crowds another, the targets are followed. */
  lemma LargeLevelsSeparate(c: Config, n: nat)
    requires ValidConfig(c) && n > 0 && !Crowds(c, n) && c.threshold <= Level(c, n)
    ensures Separated(c, n)
  {
    forall k: nat, side, k': nat, side' | Possible(c, n, k, side) && Possible(c, n, k', side')
      ensures Apart(c.threshold, Signed(side, Level(c, k)), Signed(side', Level(c, k')))
    {
      LevelBounds(c, k);
      LevelBounds(c, k');
      if k > 0 {
        LevelsDescend(c, k, n);
      }
      if k' > 0 {
        LevelsDescend(c, k', n);
      }
      assert !CrowdedBy(c, n, k, k') && !CrowdedBy(c, n, k', k);
      if 0 < k < k' {
        LevelsDescend(c, k, k');
      } else if 0 < k' < k {
        LevelsDescend(c, k', k);
      }
    }
  }

  /** Symbols are flat or hold the largest level. */
  ghost predicate OneLevel(c: Config, position: seq<real>)
    requires c.cap > 0.0
  {
    forall i :: 0 <= i < |position| ==> position[i] == 0.0 || position[i] == Level(c, 1)
  }

  /** A narrow band of levels around the threshold, long only: one rebalance either sets the targets or only closes. */
  lemma NarrowStep(c: Config, n: nat, position: seq<real>, signals: seq<Signal>)
    requires ValidConfig(c) && !Crowds(c, n) && !c.allowShort && |position| == n == |signals| && OneLevel(c, position)
    requires Level(c, n) < c.threshold <= Level(c, 1) && Level(c, 1) - Level(c, n) < c.threshold
    ensures |Targets(c, signals)| == n
    ensures var after := Applied(c, position, Targets(c, signals));
            OneLevel(c, after) && (SumAbs(after) <= SumAbs(position) || SumAbs(after) <= c.cap)
  {
    var k, targets := Active(c, signals), Targets(c, signals);
    ActiveCount(c, signals);
    LevelBounds(c, k);
    LevelBounds(c, 1);
    if k > 0 {
      LevelsDescend(c, 1, k);
      LevelsDescend(c, k, n);
      assert !CrowdedBy(c, n, 1, k);
    }
    forall i | 0 <= i < n
      ensures |targets| == n
      ensures targets[i] == 0.0 || (k > 0 && targets[i] == Level(c, k))
    {
      TargetsAreLevels(c, signals, i);
    }
    var after := Applied(c, position, targets);
    if k > 0 && Level(c, k) >= c.threshold {
      assert after == targets;
      TargetsTotal(c, signals);
    } else {
      SmallerTotal(after, position);
    }
  }

  lemma {:induction false} NarrowKeepsCap(c: Config, n: nat, rounds: seq<seq<Signal>>)
    requires ValidConfig(c) && Fits(n, rounds) && !Crowds(c, n) && !c.allowShort
    requires Level(c, n) < c.threshold <= Level(c, 1) && Level(c, 1) - Level(c, n) < c.threshold
    ensures OneLevel(c, Position(c, n, rounds)) && SumAbs(Position(c, n, rounds)) <= c.cap
  {
    if rounds == [] {
      FlatTotal(n);
    } else {
      var before := rounds[..|rounds| - 1];
      NarrowKeepsCap(c, n, before);
      NarrowStep(c, n, Position(c, n, before), rounds[|rounds| - 1]);
    }
  }

  /** The exposure stays within the cap after every sequence of rebalances if and only if no level crowds another
      and no symbol can be parked. */
  lemma CapKeptIff(c: Config, n: nat)
    requires ValidConfig(c)
    ensures CapKept(c, n) <==> !Crowds(c, n) && !Parks(c, n)
  {
    if Crowds(c, n) {
      var k': nat, k: nat :| CrowdedBy(c, n, k', k);
      CrowdingExceeds(c, n, k', k);
    } else if Parks(c, n) {
      ParkingExceeds(c, n);
    } else {
      forall rounds | Fits(n, rounds) ensures SumAbs(Position(c, n, rounds)) <= c.cap {
        SafeKeepsCap(c, n, rounds);
      }
    }
  }

  lemma SafeKeepsCap(c: Config, n: nat, rounds: seq<seq<Signal>>)
    requires ValidConfig(c) && Fits(n, rounds) && !Crowds(c, n) && !Parks(c, n)
    ensures SumAbs(Position(c, n, rounds)) <= c.cap
  {
    if n == 0 {
      assert Position(c, n, rounds) == [];
    } else if Level(c, 1) < c.threshold {
      NothingEntered(c, n, rounds);
      FlatTotal(n);
    } else if c.threshold <= Level(c, n) {
      LargeLevelsSeparate(c, n);
      FollowedTotal(c, n, rounds);
    } else {
      NarrowKeepsCap(c, n, rounds);
    }
  }

  lemma FollowedTotal(c: Config, n: nat, rounds: seq<seq<Signal>>)
    requires ValidConfig(c) && Fits(n, rounds) && Separated(c, n)
    ensures SumAbs(Position(c, n, rounds)) <= c.cap
  {
    SeparatedFollows(c, n, rounds);
    if rounds == [] {
      FlatTotal(n);
    } else {
      TargetsTotal(c, rounds[|rounds| - 1]);
    }
  }

  // ---------------------------------------------------------------- runs of the strategy

  ghost predicate BarsFit(n: nat, bars: seq<Bar>) { forall i :: 0 <= i < |bars| ==> BarFits(n, bars[i]) }

  /** Every time the strategy has seen is before `t`. */
  ghost predicate SeenBefore(s: State, t: int) {
    (s.lastCounted.Some? ==> s.lastCounted.value < t) && (s.lastDecision.Some? ==> s.lastDecision.value < t)
  }

  lemma OneMoreBar(c: Config, n: nat, bars: seq<Bar>, bar: Bar)
    requires ValidConfig(c) && BarsFit(n, bars) && BarFits(n, bar)
    ensures BarsFit(n, bars + [bar]) && Run(c, n, bars + [bar]) == OnBar(c, Run(c, n, bars), bar)
  {
    assert (bars + [bar])[..|bars|] == bars;
  }

  /** Bars without histories only count. */
  lemma {:induction false} IdleBars(c: Config, n: nat, bars: seq<Bar>, t: int, m: nat) returns (more: seq<Bar>)
    requires ValidConfig(c) && BarsFit(n, bars) && SeenBefore(Run(c, n, bars), t)
    ensures BarsFit(n, more) && SeenBefore(Run(c, n, more), t + m)
    ensures Run(c, n, more).rounds == Run(c, n, bars).rounds && Run(c, n, more).count == Run(c, n, bars).count + m
  {
    more := bars;
    if m > 0 {
      more := IdleBars(c, n, bars, t, m - 1);
      var bar := Bar(true, t + m - 1, None);
      OneMoreBar(c, n, more, bar);
      more := more + [bar];
    }
  }

  lemma NextMultiple(x: int, d: int)
    requires d > 0 && x % d == 0
    ensures (x + d) % d == 0
  {
    var z := (x + d) / d - x / d - 1;
    assert z * d == ((x + d) / d) * d - (x / d) * d - d == -((x + d) % d);
    if z >= 0 {
      assert z * d >= 0;
    }
  }

  /** Every sequence of rebalances is that of some run. */
  lemma {:induction false} RoundsHappen(c: Config, n: nat, rounds: seq<seq<Signal>>) returns (bars: seq<Bar>, t: int)
    requires ValidConfig(c) && Fits(n, rounds)
    ensures BarsFit(n, bars) && Run(c, n, bars).rounds == rounds
    ensures SeenBefore(Run(c, n, bars), t) && Run(c, n, bars).count % c.interval == 0
  {
    bars, t := [], 0;
    if rounds != [] {
      var last := |rounds| - 1;
      bars, t := RoundsHappen(c, n, rounds[..last]);
      NextMultiple(Run(c, n, bars).count, c.interval);
      bars := IdleBars(c, n, bars, t, c.interval - 1);
      t := t + c.interval;
      var bar := Bar(true, t - 1, Some(Snapshot(t - 1, rounds[last])));
      OneMoreBar(c, n, bars, bar);
      assert rounds[..last] + [rounds[last]] == rounds;
      bars := bars + [bar];
    }
  }

  /** In every run of the strategy the exposure stays within the cap, if and only if no level crowds another and no
      symbol can be parked. */
  lemma RunCapKeptIff(c: Config, n: nat)
    requires ValidConfig(c)
    ensures (forall bars :: BarsFit(n, bars) ==> SumAbs(Run(c, n, bars).current) <= c.cap)
       <==> !Crowds(c, n) && !Parks(c, n)
  {
    CapKeptIff(c, n);
    if CapKept(c, n) {
      forall bars | BarsFit(n, bars) ensures SumAbs(Run(c, n, bars).current) <= c.cap {
        RunBound(c, n, bars);
      }
    } else {
      var rounds :| Fits(n, rounds) && SumAbs(Position(c, n, rounds)) > c.cap;
      var bars, _ := RoundsHappen(c, n, rounds);
      RunBound(c, n, bars);
    }
  }

  /** Three symbols that share a cap of ten, with a threshold of two: when the third joins, the first two stay. */
  lemma CapCanBeExceeded(c: Config)
    requires c == Config(0.0, 1.0, 10.0, 10.0, 2.0, true, 1)
    ensures CrowdedBy(c, 3, 2, 3) && !CapKept(c, 3) && !Follows(c, 3)
  {
    assert Times(2, c.quantity) == 20.0 && Times(3, c.quantity) == 30.0;
    EqualShare(c, 2);
    EqualShare(c, 3);
    assert Times(2, Level(c, 2)) == Level(c, 2) + Level(c, 2);
    assert Times(3, Level(c, 3)) == Level(c, 3) + Level(c, 3) + Level(c, 3);
    CrowdingExceeds(c, 3, 2, 3);
    if Follows(c, 3) {
      FollowsIff(c, 3);
      FollowedTotal(c, 3, [Asking(c, 3, 0, 2, 1), Asking(c, 3, 0, 3, 1)]);
    }
  }
}
