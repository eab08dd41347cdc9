/** The trailing regime gate of examples/strategies/vwap_pullback_v2.py: per symbol it folds
    bars into sessions and admits new entries by features of completed sessions only. */
module RegimeGate {
  import opened Optional
  import opened Reals
  import opened Sequences
  import opened Deques
  import opened SessionRuns

  datatype Bar = Bar(session: string, isAsia: bool, open: real, high: real, low: real, close: real, volume: real)

  datatype Completed = Completed(session: string, rangePct: real, asiaShare: real, ret: real, churn: Option<real>)

  datatype Accumulator = Accumulator(session: string, open: real, high: real, low: real, close: real,
                                     totalVolume: real, asiaVolume: real)
  {
    static function FromBar(bar: Bar): Accumulator {
      Accumulator(bar.session, bar.open, bar.high, bar.low, bar.close, bar.volume,
                  if bar.isAsia then bar.volume else 0.0)
    }

    function Updated(bar: Bar): Accumulator {
      this.(high := Max(high, bar.high), low := Min(low, bar.low), close := bar.close,
            totalVolume := totalVolume + bar.volume,
            asiaVolume := if bar.isAsia then asiaVolume + bar.volume else asiaVolume)
    }

    /** The features of a finished session; none for the first, or without positive prices. */
    function Complete(previousClose: Option<real>): Option<Completed> {
      if open <= 0.0 || previousClose.None? || previousClose.value <= 0.0 then None
      else
        var range := (high - low) / open;
        var share := if totalVolume > 0.0 then asiaVolume / totalVolume else 0.0;
        var ret := (close - previousClose.value) / previousClose.value;
        Some(Completed(session, range, share, ret, if Abs(ret) > 0.0 then Some(range / Abs(ret)) else None))
    }
  }

  datatype SymbolState = SymbolState(current: Option<Accumulator>, previousClose: Option<real>,
                                     completed: seq<Completed>)

  const FRESH := SymbolState(None, None, [])

  function Finalize(lookback: nat, s: SymbolState): SymbolState
    requires s.current.Some?
  {
    var done := s.current.value.Complete(s.previousClose);
    s.(previousClose := Some(s.current.value.close),
       completed := if done.None? then s.completed else LastN(s.completed + [done.value], lookback))
  }

  function Observe(lookback: nat, s: SymbolState, bar: Bar): SymbolState {
    if s.current.None? then s.(current := Some(Accumulator.FromBar(bar)))
    else if bar.session != s.current.value.session
    then Finalize(lookback, s).(current := Some(Accumulator.FromBar(bar)))
    else s.(current := Some(s.current.value.Updated(bar)))
  }

  function ObserveAll(lookback: nat, bars: seq<Bar>): SymbolState {
    if bars == [] then FRESH
    else Observe(lookback, ObserveAll(lookback, bars[..|bars| - 1]), bars[|bars| - 1])
  }

  // ---------------------------------------------------------------- the batch reading

  function SessionOf(bar: Bar): string { bar.session }

  function HighPrice(bar: Bar): real { bar.high }

  function LowPrice(bar: Bar): real { bar.low }

  ghost function VolumeOf(run: seq<Bar>): real {
    if run == [] then 0.0 else VolumeOf(run[..|run| - 1]) + Last(run).volume
  }

  ghost function AsiaVolumeOf(run: seq<Bar>): real {
    if run == [] then 0.0
    else AsiaVolumeOf(run[..|run| - 1]) + (if Last(run).isAsia then Last(run).volume else 0.0)
  }

  /** A whole session read at once. */
  ghost function Session(run: seq<Bar>): Accumulator
    requires run != []
  {
    Accumulator(run[0].session, run[0].open, HighestOf(HighPrice, run), LowestOf(LowPrice, run), Last(run).close,
                VolumeOf(run), AsiaVolumeOf(run))
  }

  ghost predicate NonEmpty(runs: seq<seq<Bar>>) { forall i :: 0 <= i < |runs| ==> runs[i] != [] }

  ghost function LastClose(runs: seq<seq<Bar>>): Option<real>
    requires NonEmpty(runs)
  {
    if runs == [] then None else Some(Last(Last(runs)).close)
  }

  /** The features of finished sessions, oldest first. */
  ghost function Summaries(runs: seq<seq<Bar>>): seq<Completed>
    requires NonEmpty(runs)
  {
    if runs == [] then []
    else
      var before := runs[..|runs| - 1];
      var done := Session(Last(runs)).Complete(LastClose(before));
      Summaries(before) + (if done.Some? then [done.value] else [])
  }

  /** All sessions but the ongoing one. */
  ghost function Finished(bars: seq<Bar>): (runs: seq<seq<Bar>>)
    ensures NonEmpty(runs)
  {
    var runs: seq<seq<Bar>> := Runs(SessionOf, bars);
    if runs == [] then [] else runs[..|runs| - 1]
  }

  /** What a symbol's state should be after `bars`. */
  ghost function Expected(lookback: nat, bars: seq<Bar>): SymbolState {
    var runs: seq<seq<Bar>> := Runs(SessionOf, bars);
    SymbolState(if runs == [] then None else Some(Session(Last(runs))),
                LastClose(Finished(bars)), LastN(Summaries(Finished(bars)), lookback))
  }

  lemma SessionGrows(run: seq<Bar>, bar: Bar)
    requires run != []
    ensures Session(run + [bar]) == Session(run).Updated(bar)
  {
    ColumnExtremesConcat(HighPrice, run, [bar]);
    ColumnExtremesConcat(LowPrice, run, [bar]);
    ColumnExtremesOfOne(HighPrice, bar);
    ColumnExtremesOfOne(LowPrice, bar);
    assert (run + [bar])[..|run|] == run;
  }

  lemma SessionOpens(bar: Bar)
    ensures Session([bar]) == Accumulator.FromBar(bar)
  {
    assert [bar][..0] == [];
    ColumnExtremesOfOne(HighPrice, bar);
    ColumnExtremesOfOne(LowPrice, bar);
    assert VolumeOf([bar]) == bar.volume;
    assert AsiaVolumeOf([bar]) == if bar.isAsia then bar.volume else 0.0;
  }

  lemma SessionEnds(lookback: nat, runs: seq<seq<Bar>>)
    requires lookback > 0 && runs != [] && NonEmpty(runs)
    ensures var before := runs[..|runs| - 1];
            var s := SymbolState(Some(Session(Last(runs))), LastClose(before), LastN(Summaries(before), lookback));
            var r := Finalize(lookback, s);
            r.previousClose == LastClose(runs) && r.completed == LastN(Summaries(runs), lookback)
  {
    var before := runs[..|runs| - 1];
    var done := Session(Last(runs)).Complete(LastClose(before));
    if done.Some? {
      LastNAppend(Summaries(before), lookback, done.value);
    } else {
      assert Summaries(before) + [] == Summaries(before);
    }
  }

  /** The streaming state is the batch reading: the retained deque holds the last `lookback`
      summaries of finished sessions. */
  lemma {:induction false} ObservesSessions(lookback: nat, bars: seq<Bar>)
    requires lookback > 0
    ensures ObserveAll(lookback, bars) == Expected(lookback, bars)
  {
    if bars != [] {
      var init, bar := bars[..|bars| - 1], bars[|bars| - 1];
      assert bars == init + [bar];
      ObservesSessions(lookback, init);
      RunsAppend(SessionOf, init, bar);
      var runs: seq<seq<Bar>> := Runs(SessionOf, init);
      if init == [] {
        SessionOpens(bar);
        assert Runs(SessionOf, bars) == [[bar]];
      } else if Last(runs)[0].session == bar.session {
        SessionGrows(Last(runs), bar);
        assert Finished(bars) == Finished(init);
      } else {
        SessionOpens(bar);
        SessionEnds(lookback, runs);
        assert Finished(bars) == runs;
      }
    }
  }

  // ---------------------------------------------------------------- trailing return

  function Returns(sessions: seq<Completed>): (rets: seq<real>)
    ensures |rets| == |sessions|
    ensures forall i :: 0 <= i < |sessions| ==> rets[i] == sessions[i].ret
  {
    if sessions == [] then [] else Returns(sessions[..|sessions| - 1]) + [Last(sessions).ret]
  }

  /** The growth factor of a sequence of returns. */
  function Growth(rets: seq<real>): real {
    if rets == [] then 1.0 else Growth(rets[..|rets| - 1]) * (1.0 + Last(rets))
  }

  function Compound(rets: seq<real>): real { Growth(rets) - 1.0 }

  method CompoundReturn(rets: seq<real>) returns (compounded: real)
    ensures compounded == Compound(rets)
  {
    compounded := 1.0;
    for i := 0 to |rets|
      invariant compounded == Growth(rets[..i])
    {
      assert rets[..i + 1][..i] == rets[..i];
      compounded := compounded * (1.0 + rets[i]);
    }
    assert rets[..|rets|] == rets;
    compounded := compounded - 1.0;
  }

  ghost predicate Positive(bars: seq<Bar>) {
    forall i :: 0 <= i < |bars| ==> bars[i].open > 0.0 && bars[i].close > 0.0
  }

  ghost predicate AllPositive(runs: seq<seq<Bar>>) {
    forall i :: 0 <= i < |runs| ==> runs[i] != [] && Positive(runs[i])
  }

  ghost function Closes(runs: seq<seq<Bar>>): (closes: seq<real>)
    requires NonEmpty(runs)
    ensures |closes| == |runs|
    ensures forall i :: 0 <= i < |runs| ==> closes[i] == Last(runs[i]).close
  {
    if runs == [] then [] else Closes(runs[..|runs| - 1]) + [Last(Last(runs)).close]
  }

  lemma PositiveAppend(run: seq<Bar>, bar: Bar)
    requires Positive(run) && bar.open > 0.0 && bar.close > 0.0
    ensures Positive(run + [bar])
  {
  }

  lemma {:induction false} RunsPositive(bars: seq<Bar>)
    requires Positive(bars)
    ensures AllPositive(Runs(SessionOf, bars))
  {
    if bars != [] {
      var init, bar := bars[..|bars| - 1], Last(bars);
      RunsPositive(init);
      var runs: seq<seq<Bar>> := Runs(SessionOf, init);
      PositiveAppend([], bar);
      if runs != [] {
        PositiveAppend(Last(runs), bar);
      }
      assert [] + [bar] == [bar];
    }
  }

  /** `ret` is the relative change from `previous` to `close`. */
  ghost predicate IsReturn(previous: real, close: real, ret: real) { ret * previous == close - previous }

  lemma CompleteReturn(acc: Accumulator, previous: real)
    requires acc.open > 0.0 && previous > 0.0
    ensures acc.Complete(Some(previous)).Some?
    ensures IsReturn(previous, acc.close, acc.Complete(Some(previous)).value.ret)
  {
  }

  /** Returns between consecutive closes. */
  ghost predicate Links(rets: seq<real>, closes: seq<real>) {
    && |closes| == |rets| + 1
    && var n := |rets| - 1;
       rets != [] ==> Links(rets[..n], closes[..n + 1]) && IsReturn(closes[n], closes[n + 1], rets[n])
  }

  lemma LinksAppend(rets: seq<real>, closes: seq<real>, ret: real, close: real, rets': seq<real>, closes': seq<real>)
    requires Links(rets, closes) && IsReturn(closes[|rets|], close, ret)
    requires rets' == rets + [ret] && closes' == closes + [close]
    ensures Links(rets', closes')
  {
    assert rets'[..|rets|] == rets;
    assert closes'[..|rets| + 1] == closes;
  }

  /** A further session with positive prices adds one summary, with its return. */
  lemma SummaryAdded(runs: seq<seq<Bar>>)
    requires AllPositive(runs) && |runs| > 1
    ensures var before := runs[..|runs| - 1];
            && |Summaries(runs)| == |Summaries(before)| + 1
            && Returns(Summaries(runs)) == Returns(Summaries(before)) + [Last(Summaries(runs)).ret]
            && Closes(runs) == Closes(before) + [Last(Last(runs)).close]
            && IsReturn(Last(Closes(before)), Last(Last(runs)).close, Last(Summaries(runs)).ret)
  {
    var before := runs[..|runs| - 1];
    assert LastClose(before) == Some(Last(Closes(before)));
    CompleteReturn(Session(Last(runs)), Last(Closes(before)));
    assert Summaries(runs)[..|Summaries(before)|] == Summaries(before);
  }

  /** With positive prices only the first session has no features; the others carry their
      close-to-close returns. */
  lemma {:induction false} SummariesCarryReturns(runs: seq<seq<Bar>>)
    requires AllPositive(runs) && runs != []
    ensures Links(Returns(Summaries(runs)), Closes(runs))
  {
    var before := runs[..|runs| - 1];
    if before == [] {
      assert Summaries(before) == [] && Summaries(runs) == [];
    } else {
      SummariesCarryReturns(before);
      SummaryAdded(runs);
      LinksAppend(Returns(Summaries(before)), Closes(before), Last(Summaries(runs)).ret, Last(Last(runs)).close,
                  Returns(Summaries(runs)), Closes(runs));
    }
  }

  lemma {:induction false} LinksSuffix(rets: seq<real>, closes: seq<real>, m: nat)
    requires Links(rets, closes) && m <= |rets|
    ensures Links(rets[m..], closes[m..])
  {
    var n := |rets| - 1;
    if m <= n {
      LinksSuffix(rets[..n], closes[..n + 1], m);
      assert rets[m..][..n - m] == rets[..n][m..];
      assert closes[m..][..n - m + 1] == closes[..n + 1][m..];
    }
  }

  lemma GrowthStep(growth: real, ret: real, first: real, previous: real, close: real)
    requires IsReturn(first, previous, growth - 1.0) && IsReturn(previous, close, ret)
    ensures IsReturn(first, close, growth * (1.0 + ret) - 1.0)
  {
    assert growth * first == previous;
    assert growth * (1.0 + ret) * first == (growth * first) * (1.0 + ret) == previous + ret * previous;
  }

  /** The compounded return over linked returns is the return from the first close to the last. */
  lemma {:induction false} GrowthTelescopes(rets: seq<real>, closes: seq<real>)
    requires Links(rets, closes)
    ensures IsReturn(closes[0], closes[|rets|], Compound(rets))
  {
    if rets != [] {
      var n := |rets| - 1;
      GrowthTelescopes(rets[..n], closes[..n + 1]);
      GrowthStep(Growth(rets[..n]), rets[n], closes[0], closes[n], closes[n + 1]);
    }
  }

  /** Stated as a quotient: `ret` is last / first - 1. */
  lemma IsReturnIff(first: real, last: real, ret: real)
    requires first > 0.0
    ensures IsReturn(first, last, ret) <==> ret == last / first - 1.0
  {
    var ratio := last / first;
    assert ratio * first == last;
    var d := ret + 1.0 - ratio;
    assert d * first == ret * first + first - last;
    if d > 0.0 {
      assert d * first > 0.0;
    } else if d < 0.0 {
      assert d * first < 0.0;
    }
  }

  /** The last returns, compounded, are the return between two closes. */
  ghost predicate Telescopes(lookback: nat, rets: seq<real>, closes: seq<real>) {
    var n, k := |closes| - 1, |rets|;
    && k == (if n <= lookback then n else lookback) && 0 <= n - k
    && closes[n - k] > 0.0 && IsReturn(closes[n - k], closes[n], Compound(rets))
  }

  lemma LastReturnsTelescope(lookback: nat, rets: seq<real>, closes: seq<real>)
    requires Links(rets, closes) && forall i :: 0 <= i < |closes| ==> closes[i] > 0.0
    ensures Telescopes(lookback, LastN(rets, lookback), closes)
  {
    var k := |LastN(rets, lookback)|;
    var m := |rets| - k;
    assert LastN(rets, lookback) == rets[m..];
    LinksSuffix(rets, closes, m);
    GrowthTelescopes(rets[m..], closes[m..]);
    assert closes[m..][k] == closes[|rets|];
  }

  lemma ReturnsOfLast(sessions: seq<Completed>, n: nat)
    ensures Returns(LastN(sessions, n)) == LastN(Returns(sessions), n)
  {
    var left, right := Returns(LastN(sessions, n)), LastN(Returns(sessions), n);
    assert |left| == |right|;
    forall i | 0 <= i < |left| ensures left[i] == right[i] {
      assert left[i] == LastN(sessions, n)[i].ret;
    }
  }

  /** The compounded trailing return over the k retained sessions is close_n / close_(n-k) - 1. */
  lemma TrailingReturnTelescopes(lookback: nat, bars: seq<Bar>)
    requires lookback > 0 && Positive(bars) && Finished(bars) != []
    ensures Telescopes(lookback, Returns(ObserveAll(lookback, bars).completed), Closes(Finished(bars)))
  {
    var runs := Finished(bars);
    FinishedPositive(bars);
    SummariesCarryReturns(runs);
    ReturnsOfLast(Summaries(runs), lookback);
    LastReturnsTelescope(lookback, Returns(Summaries(runs)), Closes(runs));
    ObservesSessions(lookback, bars);
  }

  lemma FinishedPositive(bars: seq<Bar>)
    requires Positive(bars)
    ensures AllPositive(Finished(bars))
    ensures forall i :: 0 <= i < |Finished(bars)| ==> Closes(Finished(bars))[i] > 0.0
  {
    RunsPositive(bars);
    var runs := Finished(bars);
    forall i | 0 <= i < |runs| ensures Closes(runs)[i] > 0.0 {
      assert Positive(runs[i]);
    }
  }

  // ---------------------------------------------------------------- the gate

  datatype Rule = Off | Hard14 | HardChurn225 | Hard14CcVol17

  /** `root` stands for the decimal square root. */
  datatype Config = Config(rule: Rule, symbols: seq<string>, lookback: nat, minHistory: nat,
                           rangeMin: real, asiaShareMax: real, returnFloor: real,
                           churnMin: real, volMax: real, root: real -> real)

  ghost predicate ValidConfig(cfg: Config) {
    && 0 < cfg.minHistory <= cfg.lookback
    && Distinct(cfg.symbols)
  }

  datatype Features = Features(meanRange: real, meanAsiaShare: real, minReturn: real,
                               meanChurn: Option<real>, meanVol: real)

  function Sum(values: seq<real>): real {
    if values == [] then 0.0 else Sum(values[..|values| - 1]) + Last(values)
  }

  function Mean(values: seq<real>): real
    requires values != []
  {
    Sum(values) / |values| as real
  }

  function Squared(x: real): real { x * x }

  function SquaredDistances(values: seq<real>, mean: real): seq<real> {
    seq(|values|, i requires 0 <= i < |values| => Squared(values[i] - mean))
  }

  function RealizedVol(root: real -> real, rets: seq<real>): real {
    if |rets| < 2 then 0.0
    else
      var variance := Mean(SquaredDistances(rets, Mean(rets)));
      if variance > 0.0 then root(variance) else 0.0
  }

  function Churns(sessions: seq<Completed>): seq<real> {
    if sessions == [] then []
    else Churns(sessions[..|sessions| - 1]) + (if Last(sessions).churn.Some? then [Last(sessions).churn.value] else [])
  }

  function MeanChurns(deques: seq<seq<Completed>>): seq<real> {
    if deques == [] then []
    else MeanChurns(deques[..|deques| - 1]) + (if Churns(Last(deques)) != [] then [Mean(Churns(Last(deques)))] else [])
  }

  function RangePct(session: Completed): real { session.rangePct }

  function AsiaShare(session: Completed): real { session.asiaShare }

  /** The mean of one column for every symbol. */
  function Means(value: Completed -> real, deques: seq<seq<Completed>>): seq<real>
    requires forall i :: 0 <= i < |deques| ==> deques[i] != []
  {
    seq(|deques|, i requires 0 <= i < |deques| => Mean(Column(value, deques[i])))
  }

  function TrailingReturns(deques: seq<seq<Completed>>): seq<real> {
    seq(|deques|, i requires 0 <= i < |deques| => Compound(Returns(deques[i])))
  }

  function RealizedVols(cfg: Config, deques: seq<seq<Completed>>): seq<real> {
    seq(|deques|, i requires 0 <= i < |deques| => RealizedVol(cfg.root, Returns(deques[i])))
  }

  /** Features of the retained sessions, one deque per symbol; none while a history is short. */
  function Snapshot(cfg: Config, deques: seq<seq<Completed>>): Option<Features>
    requires ValidConfig(cfg)
  {
    if deques == [] || exists i :: 0 <= i < |deques| && |deques[i]| < cfg.minHistory then None
    else
      var churns := MeanChurns(deques);
      Some(Features(Mean(Means(RangePct, deques)), Mean(Means(AsiaShare, deques)), Lowest(TrailingReturns(deques)),
                    if churns != [] then Some(Mean(churns)) else None, Mean(RealizedVols(cfg, deques))))
  }

  predicate Blocks(cfg: Config, f: Features) {
    && f.meanRange >= cfg.rangeMin && f.meanAsiaShare <= cfg.asiaShareMax && f.minReturn > cfg.returnFloor
    && match cfg.rule
       case Off => false
       case Hard14 => true
       case HardChurn225 => f.meanChurn.Some? && f.meanChurn.value >= cfg.churnMin
       case Hard14CcVol17 => f.meanVol <= cfg.volMax
  }

  datatype Tick = Tick(symbol: string, bar: Bar)

  type States = map<string, SymbolState>

  function Initial(cfg: Config): States { map x | x in cfg.symbols :: FRESH }

  function UpdateBar(cfg: Config, states: States, tick: Tick): (r: States)
    ensures r.Keys == states.Keys
  {
    if cfg.rule.Off? || tick.symbol !in states then states
    else states[tick.symbol := Observe(cfg.lookback, states[tick.symbol], tick.bar)]
  }

  function WatchFrom(cfg: Config, states: States, ticks: seq<Tick>): (r: States)
    ensures r.Keys == states.Keys
  {
    if ticks == [] then states
    else UpdateBar(cfg, WatchFrom(cfg, states, ticks[..|ticks| - 1]), Last(ticks))
  }

  function DequesOf(cfg: Config, states: States): seq<seq<Completed>>
    requires forall x :: x in cfg.symbols ==> x in states
  {
    seq(|cfg.symbols|, i requires 0 <= i < |cfg.symbols| => states[cfg.symbols[i]].completed)
  }

  predicate Allows(cfg: Config, states: States)
    requires ValidConfig(cfg) && forall x :: x in cfg.symbols ==> x in states
  {
    cfg.rule.Off? ||
    var snapshot := Snapshot(cfg, DequesOf(cfg, states));
    snapshot.None? || !Blocks(cfg, snapshot.value)
  }

  ghost function OwnBars(x: string, ticks: seq<Tick>): seq<Bar> {
    if ticks == [] then []
    else OwnBars(x, ticks[..|ticks| - 1]) + (if Last(ticks).symbol == x then [Last(ticks).bar] else [])
  }

  lemma ObserveAppend(lookback: nat, bars: seq<Bar>, bar: Bar)
    ensures ObserveAll(lookback, bars + [bar]) == Observe(lookback, ObserveAll(lookback, bars), bar)
  {
    assert (bars + [bar])[..|bars|] == bars;
  }

  lemma {:induction false} WatchProjects(cfg: Config, ticks: seq<Tick>, x: string)
    requires !cfg.rule.Off? && x in cfg.symbols
    ensures WatchFrom(cfg, Initial(cfg), ticks)[x] == ObserveAll(cfg.lookback, OwnBars(x, ticks))
  {
    if ticks != [] {
      var init := ticks[..|ticks| - 1];
      WatchProjects(cfg, init, x);
      if Last(ticks).symbol == x {
        ObserveAppend(cfg.lookback, OwnBars(x, init), Last(ticks).bar);
      } else {
        assert OwnBars(x, init) + [] == OwnBars(x, init);
      }
    }
  }

  /** Each symbol's deque holds the last `lookback` summaries of its own finished sessions. */
  lemma RetainedSessions(cfg: Config, ticks: seq<Tick>, x: string)
    requires ValidConfig(cfg) && !cfg.rule.Off? && x in cfg.symbols
    ensures WatchFrom(cfg, Initial(cfg), ticks)[x].completed
         == LastN(Summaries(Finished(OwnBars(x, ticks))), cfg.lookback)
  {
    WatchProjects(cfg, ticks, x);
    ObservesSessions(cfg.lookback, OwnBars(x, ticks));
  }

  lemma SameFinishedSameDeques(cfg: Config, ticks: seq<Tick>, ticks': seq<Tick>)
    requires ValidConfig(cfg) && !cfg.rule.Off?
    requires forall x :: x in cfg.symbols ==> Finished(OwnBars(x, ticks)) == Finished(OwnBars(x, ticks'))
    ensures DequesOf(cfg, WatchFrom(cfg, Initial(cfg), ticks)) == DequesOf(cfg, WatchFrom(cfg, Initial(cfg), ticks'))
  {
    forall i | 0 <= i < |cfg.symbols|
      ensures WatchFrom(cfg, Initial(cfg), ticks)[cfg.symbols[i]].completed
           == WatchFrom(cfg, Initial(cfg), ticks')[cfg.symbols[i]].completed
    {
      RetainedSessions(cfg, ticks, cfg.symbols[i]);
      RetainedSessions(cfg, ticks', cfg.symbols[i]);
    }
  }

  /** The verdict is a function of finished sessions alone: streams that agree on every symbol's
      finished sessions get the same verdict, whatever the ongoing sessions hold. */
  lemma GateSeesFinishedSessionsOnly(cfg: Config, ticks: seq<Tick>, ticks': seq<Tick>)
    requires ValidConfig(cfg)
    requires forall x :: x in cfg.symbols ==> Finished(OwnBars(x, ticks)) == Finished(OwnBars(x, ticks'))
    ensures Allows(cfg, WatchFrom(cfg, Initial(cfg), ticks)) == Allows(cfg, WatchFrom(cfg, Initial(cfg), ticks'))
  {
    if !cfg.rule.Off? {
      SameFinishedSameDeques(cfg, ticks, ticks');
    }
  }

  /** The tick belongs to a session its symbol is already in. */
  ghost predicate Ongoing(states: States, tick: Tick) {
    tick.symbol in states ==>
      states[tick.symbol].current.Some? && states[tick.symbol].current.value.session == tick.bar.session
  }

  lemma OngoingUpdate(cfg: Config, states: States, tick: Tick)
    requires Ongoing(states, tick)
    ensures forall x :: x in states ==>
              var s, r := states[x], UpdateBar(cfg, states, tick)[x];
              && r.completed == s.completed && r.current.Some? == s.current.Some?
              && (s.current.Some? ==> r.current.value.session == s.current.value.session)
  {
  }

  lemma {:induction false} OngoingKeepsDeques(cfg: Config, states: States, more: seq<Tick>)
    requires forall i :: 0 <= i < |more| ==> Ongoing(states, more[i])
    ensures forall x :: x in states ==>
              var s, r := states[x], WatchFrom(cfg, states, more)[x];
              && r.completed == s.completed && r.current.Some? == s.current.Some?
              && (s.current.Some? ==> r.current.value.session == s.current.value.session)
  {
    if more != [] {
      var init := more[..|more| - 1];
      OngoingKeepsDeques(cfg, states, init);
      assert Ongoing(states, Last(more));
      OngoingUpdate(cfg, WatchFrom(cfg, states, init), Last(more));
    }
  }

  /** No look-ahead: any number of further bars of ongoing sessions leave the verdict unchanged. */
  lemma NoLookahead(cfg: Config, states: States, more: seq<Tick>)
    requires ValidConfig(cfg) && forall x :: x in cfg.symbols ==> x in states
    requires forall i :: 0 <= i < |more| ==> Ongoing(states, more[i])
    ensures Allows(cfg, WatchFrom(cfg, states, more)) == Allows(cfg, states)
  {
    OngoingKeepsDeques(cfg, states, more);
    assert DequesOf(cfg, WatchFrom(cfg, states, more)) == DequesOf(cfg, states);
  }
}
