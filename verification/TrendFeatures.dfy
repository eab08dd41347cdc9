/** Trend age and trend efficiency of strategies/research/vwap_factor_research.py, computed
    online over a trimmed VWAP history. */
module TrendFeatures {
  import opened Optional
  import opened Reals
  import opened Deques

  /** Direction of one move: rising, falling or flat. */
  function Sign(earlier: real, later: real): int { if later > earlier then 1 else if later < earlier then -1 else 0 }

  datatype Trend = Trend(history: seq<real>, direction: int, age: nat)

  const NO_TREND := Trend([], 0, 0)

  /** `_update_trend_age` followed by the append and trim of the history. */
  function Observe(limit: nat, t: Trend, vwap: real): Trend {
    var history := LastN(t.history + [vwap], limit);
    if t.history == [] then t.(history := history)
    else
      var direction := Sign(t.history[|t.history| - 1], vwap);
      if direction == 0 then Trend(history, 0, 0)
      else if direction == t.direction then Trend(history, direction, t.age + 1)
      else Trend(history, direction, 1)
  }

  function ObserveAll(limit: nat, series: seq<real>): Trend {
    if series == [] then NO_TREND
    else Observe(limit, ObserveAll(limit, series[..|series| - 1]), series[|series| - 1])
  }

  /** The direction of the move into position `i`. */
  ghost function Move(series: seq<real>, i: int): int
    requires 0 < i < |series|
  {
    Sign(series[i - 1], series[i])
  }

  /** The last `k` moves of the series all go strictly in the direction `d`. */
  ghost predicate Marches(series: seq<real>, k: nat, d: int) {
    && k < |series|
    && forall i :: |series| - k <= i < |series| ==> Move(series, i) == d
  }

  /** `age` is the length of the longest suffix of strict moves in one direction. */
  ghost predicate IsTrendAge(series: seq<real>, direction: int, age: nat) {
    if |series| <= 1 then direction == 0 && age == 0
    else
      && direction == Move(series, |series| - 1)
      && (direction == 0 ==> age == 0)
      && (direction != 0 ==> age > 0 && Marches(series, age, direction)
                             && (age == |series| - 1 || Move(series, |series| - age - 1) != direction))
  }

  /** A march of `k` moves is never longer than the trend age, so the age is the maximum. */
  lemma AgeIsMaximal(series: seq<real>, direction: int, age: nat, k: nat, d: int)
    requires IsTrendAge(series, direction, age) && Marches(series, k, d) && d != 0 && k > 0
    ensures d == direction && k <= age
  {
    var n := |series|;
    assert Move(series, n - 1) == d;
  }

  lemma MarchExtends(series: seq<real>, k: nat, d: int, x: real)
    requires series != [] && k < |series| && Sign(series[|series| - 1], x) == d
    requires k > 0 ==> Marches(series, k, d)
    ensures Marches(series + [x], k + 1, d)
  {
    var longer := series + [x];
    forall i | |longer| - k - 1 <= i < |longer| ensures Move(longer, i) == d {
      if i < |series| {
        assert Move(longer, i) == Move(series, i);
      }
    }
  }

  /** How one more value changes the trend. */
  lemma TrendAppend(series: seq<real>, direction: int, age: nat, x: real)
    requires series != [] && IsTrendAge(series, direction, age)
    ensures var d := Sign(series[|series| - 1], x);
            IsTrendAge(series + [x], d, if d == 0 then 0 else if d == direction then age + 1 else 1)
  {
    var n, longer := |series|, series + [x];
    var d := Sign(series[n - 1], x);
    assert Move(longer, n) == d;
    if d != 0 {
      if d == direction {
        MarchExtends(series, age, d, x);
        assert age < n - 1 ==> Move(longer, n - age - 1) == Move(series, n - age - 1);
      } else {
        MarchExtends(series, 0, d, x);
        assert n > 1 ==> Move(longer, n - 1) == Move(series, n - 1);
      }
    }
  }

  lemma {:induction false} HistoryIsTrimmed(limit: nat, series: seq<real>)
    requires limit > 0
    ensures ObserveAll(limit, series).history == LastN(series, limit)
  {
    if series != [] {
      var n := |series| - 1;
      var init, x := series[..n], series[n];
      HistoryIsTrimmed(limit, init);
      ObserveHistory(limit, ObserveAll(limit, init), x);
      LastNAppend(init, limit, x);
      assert series == init + [x];
    }
  }

  lemma ObserveHistory(limit: nat, t: Trend, vwap: real)
    ensures Observe(limit, t, vwap).history == LastN(t.history + [vwap], limit)
  {
  }

  lemma LastOfTrimmed(limit: nat, series: seq<real>)
    requires limit > 0 && series != []
    ensures var trimmed := LastN(series, limit);
            trimmed != [] && trimmed[|trimmed| - 1] == series[|series| - 1]
  {
  }

  /** The trend has seen the last value of the series, and nothing if there is none. */
  ghost predicate EndsWith(series: seq<real>, history: seq<real>) {
    if series == [] then history == []
    else history != [] && history[|history| - 1] == series[|series| - 1]
  }

  lemma ObserveKeepsTrend(limit: nat, series: seq<real>, t: Trend, x: real)
    requires EndsWith(series, t.history) && IsTrendAge(series, t.direction, t.age)
    ensures IsTrendAge(series + [x], Observe(limit, t, x).direction, Observe(limit, t, x).age)
  {
    if series != [] {
      ObserveTrend(limit, t, x);
      TrendAppend(series, t.direction, t.age, x);
    } else {
      OneValue(limit, t, x);
      assert series + [x] == [x];
    }
  }

  lemma OneValue(limit: nat, t: Trend, x: real)
    requires t.history == [] && t.direction == 0 && t.age == 0
    ensures IsTrendAge([x], Observe(limit, t, x).direction, Observe(limit, t, x).age)
  {
  }

  lemma ObserveTrend(limit: nat, t: Trend, x: real)
    requires t.history != []
    ensures var d, r := Sign(t.history[|t.history| - 1], x), Observe(limit, t, x);
            r.direction == d && r.age == if d == 0 then 0 else if d == t.direction then t.age + 1 else 1
  {
  }

  /** The online direction and age over the trimmed history are those of the whole session series. */
  lemma {:induction false} TrendAgeIsLongestSuffix(limit: nat, series: seq<real>)
    requires limit > 0
    ensures IsTrendAge(series, ObserveAll(limit, series).direction, ObserveAll(limit, series).age)
  {
    if series != [] {
      var n := |series| - 1;
      var init, x := series[..n], series[n];
      TrendAgeIsLongestSuffix(limit, init);
      HistoryIsTrimmed(limit, init);
      if init != [] {
        LastOfTrimmed(limit, init);
      }
      assert series == init + [x];
      ObserveKeepsTrend(limit, init, ObserveAll(limit, init), x);
    }
  }

  // ---------------------------------------------------------------- efficiency

  /** Total distance walked by a window of values. */
  function Path(window: seq<real>): real {
    if |window| <= 1 then 0.0
    else Path(window[..|window| - 1]) + Abs(window[|window| - 1] - window[|window| - 2])
  }

  method PathLength(window: seq<real>) returns (path: real)
    ensures path == Path(window)
  {
    path := 0.0;
    var index := 1;
    while index < |window|
      invariant 1 <= index && (index <= |window| || |window| == 0)
      invariant path == if window == [] then 0.0 else Path(window[..index])
    {
      assert window[..index + 1][..index] == window[..index];
      path := path + Abs(window[index] - window[index - 1]);
      index := index + 1;
    }
    assert window[..|window|] == window;
  }

  /** `_trend_efficiency`: net signed progress over the path, when both are defined. */
  function Efficiency(lookback: nat, history: seq<real>, long: bool): Option<real> {
    if |history| < lookback + 1 then None else WindowEfficiency(LastN(history, lookback + 1), long)
  }

  function WindowEfficiency(window: seq<real>, long: bool): Option<real>
    requires window != []
  {
    var path := Path(window);
    if path <= 0.0 then None
    else
      var net := window[|window| - 1] - window[0];
      Some((if long then net else -net) / path)
  }

  /** No walk gets further than its path: the triangle inequality. */
  lemma {:induction false} PathBoundsNet(window: seq<real>)
    requires window != []
    ensures Abs(window[|window| - 1] - window[0]) <= Path(window)
  {
    if |window| > 1 {
      PathBoundsNet(window[..|window| - 1]);
    }
  }

  lemma RatioBounds(net: real, path: real)
    requires path > 0.0 && Abs(net) <= path
    ensures -1.0 <= net / path <= 1.0
  {
    var ratio := net / path;
    assert ratio * path == net;
  }

  /** Trend efficiency, when defined, lies in [-1, 1] for every window. */
  lemma EfficiencyBounded(lookback: nat, history: seq<real>, long: bool)
    requires Efficiency(lookback, history, long).Some?
    ensures -1.0 <= Efficiency(lookback, history, long).value <= 1.0
  {
    var window := LastN(history, lookback + 1);
    var net := window[|window| - 1] - window[0];
    PathBoundsNet(window);
    RatioBounds(if long then net else -net, Path(window));
  }

  /** Efficiency times the path is the net move, counted in the direction of the position. */
  lemma EfficiencyIs(lookback: nat, history: seq<real>, long: bool)
    ensures Efficiency(lookback, history, long).Some?
       <==> |history| >= lookback + 1 && Path(history[|history| - lookback - 1..]) > 0.0
    ensures Efficiency(lookback, history, long).Some? ==>
              var w := history[|history| - lookback - 1..];
              Efficiency(lookback, history, long).value * Path(w)
              == if long then w[lookback] - w[0] else w[0] - w[lookback]
  {
    if |history| >= lookback + 1 {
      assert LastN(history, lookback + 1) == history[|history| - lookback - 1..];
    }
  }

  ghost predicate NeverFalls(window: seq<real>) {
    |window| > 1 ==>
      NeverFalls(window[..|window| - 1]) && window[|window| - 2] <= window[|window| - 1]
  }

  /** The net move is the whole path exactly when the window never falls. */
  lemma {:induction false} WholePathIff(window: seq<real>)
    requires window != []
    ensures window[|window| - 1] - window[0] == Path(window) <==> NeverFalls(window)
  {
    if |window| > 1 {
      WholePathIff(window[..|window| - 1]);
      PathBoundsNet(window[..|window| - 1]);
    }
  }

  /** The trimmed history gives the efficiency that the whole session series would give. */
  lemma EfficiencyOfWholeSeries(limit: nat, lookback: nat, series: seq<real>, long: bool)
    requires limit >= lookback + 1
    ensures Efficiency(lookback, ObserveAll(limit, series).history, long) == Efficiency(lookback, series, long)
  {
    HistoryIsTrimmed(limit, series);
    assert |series| >= lookback + 1 ==> LastN(LastN(series, limit), lookback + 1) == LastN(series, lookback + 1);
  }

  /** The per-session state as the strategy updates it. */
  class SessionTrend {
    const limit: nat
    var history: seq<real>
    var direction: int
    var age: nat

    ghost function View(): Trend
      reads this
    {
      Trend(history, direction, age)
    }

    constructor (limit: nat)
      requires limit > 0
      ensures this.limit == limit && View() == NO_TREND
    {
      this.limit := limit;
      history, direction, age := [], 0, 0;
    }

    method UpdateTrendAge(vwap: real)
      modifies this`direction, this`age
      ensures direction == Observe(limit, old(View()), vwap).direction
      ensures age == Observe(limit, old(View()), vwap).age
    {
      if history == [] {
        return;
      }
      var previous := history[|history| - 1];
      var move;
      if vwap > previous {
        move := 1;
      } else if vwap < previous {
        move := -1;
      } else {
        direction, age := 0, 0;
        return;
      }
      if move == direction {
        age := age + 1;
      } else {
        direction, age := move, 1;
      }
    }

    method Append(vwap: real)
      modifies this
      ensures View() == Observe(limit, old(View()), vwap)
    {
      UpdateTrendAge(vwap);
      ghost var longer := history + [vwap];
      history := history + [vwap];
      while |history| > limit
        invariant LastN(history, limit) == LastN(longer, limit)
        invariant direction == Observe(limit, old(View()), vwap).direction
        invariant age == Observe(limit, old(View()), vwap).age
        decreases |history|
      {
        history := history[1..];
      }
    }
  }
}
