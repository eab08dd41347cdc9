/** The verdict of the trailing regime gate, examples/strategies/vwap_pullback_v2.py, in terms of the finished sessions
    themselves, and the gate object. */
module GateVerdict {
  import opened Optional
  import opened Reals
  import opened Sequences
  import opened Deques
  import opened SessionRuns
  import opened RegimeGate

  /** A finished session that counts, with the close of the session before it. */
  datatype Day = Day(previous: real, bars: seq<Bar>)

  /** The sessions that count: not the first, opened at a positive price after a positive close. */
  ghost function Days(runs: seq<seq<Bar>>): seq<Day>
    requires NonEmpty(runs)
  {
    if |runs| <= 1 then []
    else
      var before, run := runs[..|runs| - 1], Last(runs);
      var previous := Last(Last(before)).close;
      Days(before) + (if run[0].open > 0.0 && previous > 0.0 then [Day(previous, run)] else [])
  }

  /** What the gate looks at: for every symbol its last `lookback` sessions that count. */
  ghost function Retained(cfg: Config, ticks: seq<Tick>): seq<seq<Day>> {
    seq(|cfg.symbols|, i requires 0 <= i < |cfg.symbols| =>
      LastN(Days(Finished(OwnBars(cfg.symbols[i], ticks))), cfg.lookback))
  }

  ghost predicate Counts(d: Day) { d.bars != [] && d.bars[0].open > 0.0 && d.previous > 0.0 }

  /** High minus low, relative to the open. */
  ghost function Range(d: Day): real {
    if Counts(d) then (HighestOf(HighPrice, d.bars) - LowestOf(LowPrice, d.bars)) / d.bars[0].open else 0.0
  }

  /** The share of the volume that was traded in the Asian hours. */
  ghost function Share(d: Day): real {
    if VolumeOf(d.bars) > 0.0 then AsiaVolumeOf(d.bars) / VolumeOf(d.bars) else 0.0
  }

  /** The relative change from close to close. */
  ghost function Change(d: Day): real {
    if Counts(d) then (d.bars[|d.bars| - 1].close - d.previous) / d.previous else 0.0
  }

  /** The range in relation to the change. */
  ghost function Churn(d: Day): real { if Change(d) == 0.0 then 0.0 else Range(d) / Abs(Change(d)) }

  /** The four figures of a session. */
  datatype Measures = Measures(range: Day -> real, share: Day -> real, change: Day -> real, churn: Day -> real)

  ghost function Figures(): Measures { Measures(Range, Share, Change, Churn) }

  /** The sessions that closed elsewhere than the one before. */
  ghost function Moving(change: Day -> real, days: seq<Day>): seq<Day> {
    if days == [] then []
    else Moving(change, days[..|days| - 1]) + (if change(Last(days)) != 0.0 then [Last(days)] else [])
  }

  ghost function Average(values: seq<real>): real {
    if values == [] then 0.0 else Sum(values) / |values| as real
  }

  /** One average per symbol. */
  ghost function Averages(value: Day -> real, kept: seq<seq<Day>>): seq<real> {
    seq(|kept|, i requires 0 <= i < |kept| => Average(Column(value, kept[i])))
  }

  /** One average churn per symbol that moved at all. */
  ghost function ChurnAverages(m: Measures, kept: seq<seq<Day>>): seq<real> {
    if kept == [] then []
    else
      var moving := Moving(m.change, Last(kept));
      ChurnAverages(m, kept[..|kept| - 1]) + (if moving != [] then [Average(Column(m.churn, moving))] else [])
  }

  ghost function Square(x: real): real { x * x }

  ghost function Squares(values: seq<real>, mean: real): seq<real> {
    if values == [] then [] else Squares(values[..|values| - 1], mean) + [Square(Last(values) - mean)]
  }

  /** The standard deviation of some changes, by the given root. */
  ghost function Volatility(root: real -> real, changes: seq<real>): real {
    var variance := Average(Squares(changes, Average(changes)));
    if |changes| >= 2 && variance > 0.0 then root(variance) else 0.0
  }

  ghost function Volatilities(cfg: Config, change: Day -> real, kept: seq<seq<Day>>): seq<real> {
    seq(|kept|, i requires 0 <= i < |kept| => Volatility(cfg.root, Column(change, kept[i])))
  }

  ghost predicate AtLeastOnAverage(values: seq<real>, bound: real) { Sum(values) >= |values| as real * bound }

  ghost predicate AtMostOnAverage(values: seq<real>, bound: real) { Sum(values) <= |values| as real * bound }

  /** When new entries are refused, by the figures of the retained sessions. */
  ghost predicate RefusesBy(m: Measures, cfg: Config, kept: seq<seq<Day>>) {
    && kept != [] && (forall i :: 0 <= i < |kept| ==> |kept[i]| >= cfg.minHistory)
    && AtLeastOnAverage(Averages(m.range, kept), cfg.rangeMin)
    && AtMostOnAverage(Averages(m.share, kept), cfg.asiaShareMax)
    && (forall i :: 0 <= i < |kept| ==> Compound(Column(m.change, kept[i])) > cfg.returnFloor)
    && match cfg.rule
       case Off => false
       case Hard14 => true
       case HardChurn225 =>
         ChurnAverages(m, kept) != [] && AtLeastOnAverage(ChurnAverages(m, kept), cfg.churnMin)
       case Hard14CcVol17 => AtMostOnAverage(Volatilities(cfg, m.change, kept), cfg.volMax)
  }

  ghost predicate Refuses(cfg: Config, kept: seq<seq<Day>>) { RefusesBy(Figures(), cfg, kept) }

  // ---------------------------------------------------------------- sums and means

  /** Summing is adding up: the parts of a list, and one value. */
  lemma {:induction false} SumConcat(a: seq<real>, b: seq<real>, x: real)
    ensures Sum(a + b) == Sum(a) + Sum(b) && Sum([x]) == x
  {
    assert [x][..0] == [];
    if b == [] {
      assert a + b == a;
    } else {
      SumConcat(a, b[..|b| - 1], x);
      assert (a + b)[..|a + b| - 1] == a + b[..|b| - 1];
    }
  }

  /** A mean compares with a bound as the sum with so many times the bound. */
  lemma MeanBounds(values: seq<real>, bound: real)
    requires values != []
    ensures Mean(values) >= bound <==> AtLeastOnAverage(values, bound)
    ensures Mean(values) <= bound <==> AtMostOnAverage(values, bound)
  {
    var n, mean := |values| as real, Mean(values);
    assert mean * n == Sum(values);
    var d := mean - bound;
    assert d * n == Sum(values) - n * bound;
    if d > 0.0 {
      assert d * n > 0.0;
    } else if d < 0.0 {
      assert d * n < 0.0;
    }
  }

  // ---------------------------------------------------------------- the summaries are the sessions

  /** The features kept of a session are its figures. */
  ghost predicate Describes(m: Measures, d: Day, f: Completed) {
    && f.rangePct == m.range(d) && f.asiaShare == m.share(d) && f.ret == m.change(d)
    && f.churn == if m.change(d) == 0.0 then None else Some(m.churn(d))
  }

  ghost predicate DescribesAll(m: Measures, days: seq<Day>, sessions: seq<Completed>) {
    |days| == |sessions| && forall i :: 0 <= i < |days| ==> Describes(m, days[i], sessions[i])
  }

  lemma CompleteDescribes(run: seq<Bar>, previous: real)
    requires run != [] && run[0].open > 0.0 && previous > 0.0
    ensures var done := Session(run).Complete(Some(previous));
            done.Some? && Describes(Figures(), Day(previous, run), done.value)
  {
  }

  lemma DescribesAppend(m: Measures, days: seq<Day>, sessions: seq<Completed>, d: Day, f: Completed)
    requires DescribesAll(m, days, sessions) && Describes(m, d, f)
    ensures DescribesAll(m, days + [d], sessions + [f])
  {
  }

  lemma {:induction false} SummariesDescribe(runs: seq<seq<Bar>>)
    requires NonEmpty(runs)
    ensures DescribesAll(Figures(), Days(runs), Summaries(runs))
  {
    if runs != [] {
      var before, run := runs[..|runs| - 1], Last(runs);
      SummariesDescribe(before);
      if before == [] {
        assert Summaries(before) == [] && LastClose(before) == None;
      } else {
        var previous := Last(Last(before)).close;
        var done := Session(run).Complete(Some(previous));
        assert LastClose(before) == Some(previous);
        if run[0].open > 0.0 && previous > 0.0 {
          CompleteDescribes(run, previous);
          DescribesAppend(Figures(), Days(before), Summaries(before), Day(previous, run), done.value);
        } else {
          assert done == None;
        }
      }
    }
  }

  lemma LastDescribes(m: Measures, days: seq<Day>, sessions: seq<Completed>, n: nat)
    requires DescribesAll(m, days, sessions)
    ensures DescribesAll(m, LastN(days, n), LastN(sessions, n))
  {
    var k := |days| - |LastN(days, n)|;
    forall i | 0 <= i < |LastN(days, n)| ensures Describes(m, LastN(days, n)[i], LastN(sessions, n)[i]) {
      assert LastN(days, n)[i] == days[k + i] && LastN(sessions, n)[i] == sessions[k + i];
    }
  }

  /** The deques hold the figures of the retained sessions. */
  lemma DequesDescribe(cfg: Config, ticks: seq<Tick>, i: nat)
    requires ValidConfig(cfg) && !cfg.rule.Off? && i < |cfg.symbols|
    ensures DescribesAll(Figures(), Retained(cfg, ticks)[i], DequesOf(cfg, WatchFrom(cfg, Initial(cfg), ticks))[i])
  {
    var x := cfg.symbols[i];
    RetainedSessions(cfg, ticks, x);
    SummariesDescribe(Finished(OwnBars(x, ticks)));
    LastDescribes(Figures(), Days(Finished(OwnBars(x, ticks))), Summaries(Finished(OwnBars(x, ticks))), cfg.lookback);
  }

  ghost predicate Described(m: Measures, kept: seq<seq<Day>>, deques: seq<seq<Completed>>) {
    |kept| == |deques| && forall i :: 0 <= i < |kept| ==> DescribesAll(m, kept[i], deques[i])
  }

  // ---------------------------------------------------------------- figure by figure

  lemma ColumnsAgree(m: Measures, days: seq<Day>, sessions: seq<Completed>)
    requires DescribesAll(m, days, sessions)
    ensures Column(RangePct, sessions) == Column(m.range, days)
    ensures Column(AsiaShare, sessions) == Column(m.share, days)
    ensures Returns(sessions) == Column(m.change, days)
  {
    forall i | 0 <= i < |days|
      ensures Column(RangePct, sessions)[i] == Column(m.range, days)[i]
      ensures Column(AsiaShare, sessions)[i] == Column(m.share, days)[i]
      ensures Returns(sessions)[i] == Column(m.change, days)[i]
    {
      assert Describes(m, days[i], sessions[i]);
      assert RangePct(sessions[i]) == m.range(days[i]) && AsiaShare(sessions[i]) == m.share(days[i]);
    }
  }

  lemma MeanIsAverage(values: seq<real>)
    requires values != []
    ensures Mean(values) == Average(values)
  {
  }

  /** A volatility is the root of the mean squared distance from the mean. */
  lemma VolatilityAgrees(root: real -> real, rets: seq<real>)
    ensures RealizedVol(root, rets) == Volatility(root, rets)
  {
    if |rets| >= 2 {
      MeanIsAverage(rets);
      SquaresAgree(rets, Mean(rets));
      MeanIsAverage(SquaredDistances(rets, Mean(rets)));
    }
  }

  lemma {:induction false} SquaresAgree(values: seq<real>, mean: real)
    ensures SquaredDistances(values, mean) == Squares(values, mean)
  {
    if values != [] {
      var n := |values| - 1;
      SquaresAgree(values[..n], mean);
      assert Squared(values[n] - mean) == Square(values[n] - mean);
      assert SquaredDistances(values, mean) == SquaredDistances(values[..n], mean) + [Squared(values[n] - mean)];
    }
  }

  lemma {:induction false} ChurnsAgree(m: Measures, days: seq<Day>, sessions: seq<Completed>)
    requires DescribesAll(m, days, sessions)
    ensures Churns(sessions) == Column(m.churn, Moving(m.change, days))
  {
    if days != [] {
      ChurnsAgree(m, days[..|days| - 1], sessions[..|sessions| - 1]);
      assert Describes(m, Last(days), Last(sessions));
    }
  }

  lemma {:induction false} MeanChurnsAgree(m: Measures, kept: seq<seq<Day>>, deques: seq<seq<Completed>>)
    requires Described(m, kept, deques)
    ensures MeanChurns(deques) == ChurnAverages(m, kept)
  {
    if kept != [] {
      MeanChurnsAgree(m, kept[..|kept| - 1], deques[..|deques| - 1]);
      ChurnsAgree(m, Last(kept), Last(deques));
    }
  }

  ghost function Trailing(m: Measures, kept: seq<seq<Day>>): seq<real> {
    seq(|kept|, i requires 0 <= i < |kept| => Compound(Column(m.change, kept[i])))
  }

  lemma ListsAgree(m: Measures, cfg: Config, kept: seq<seq<Day>>, deques: seq<seq<Completed>>)
    requires Described(m, kept, deques) && forall i :: 0 <= i < |deques| ==> deques[i] != []
    ensures Means(RangePct, deques) == Averages(m.range, kept) && Means(AsiaShare, deques) == Averages(m.share, kept)
    ensures TrailingReturns(deques) == Trailing(m, kept)
    ensures RealizedVols(cfg, deques) == Volatilities(cfg, m.change, kept)
  {
    forall i | 0 <= i < |deques|
      ensures Means(RangePct, deques)[i] == Averages(m.range, kept)[i]
      ensures Means(AsiaShare, deques)[i] == Averages(m.share, kept)[i]
      ensures TrailingReturns(deques)[i] == Trailing(m, kept)[i]
      ensures RealizedVols(cfg, deques)[i] == Volatilities(cfg, m.change, kept)[i]
    {
      assert DescribesAll(m, kept[i], deques[i]);
      ColumnsAgree(m, kept[i], deques[i]);
      MeanIsAverage(Column(RangePct, deques[i]));
      MeanIsAverage(Column(AsiaShare, deques[i]));
      VolatilityAgrees(cfg.root, Returns(deques[i]));
    }
  }

  /** The snapshot taken of the deques is that of the sessions. */
  lemma SnapshotAgrees(m: Measures, cfg: Config, kept: seq<seq<Day>>, deques: seq<seq<Completed>>)
    requires ValidConfig(cfg) && Described(m, kept, deques) && kept != []
    requires forall i :: 0 <= i < |kept| ==> |kept[i]| >= cfg.minHistory
    ensures var churns := ChurnAverages(m, kept);
            Snapshot(cfg, deques)
            == Some(Features(Mean(Averages(m.range, kept)), Mean(Averages(m.share, kept)), Lowest(Trailing(m, kept)),
                             if churns != [] then Some(Mean(churns)) else None,
                             Mean(Volatilities(cfg, m.change, kept))))
  {
    MeanChurnsAgree(m, kept, deques);
    forall i | 0 <= i < |deques| ensures |deques[i]| == |kept[i]| {
      assert DescribesAll(m, kept[i], deques[i]);
    }
    ListsAgree(m, cfg, kept, deques);
  }

  lemma LowestExceeds(values: seq<real>, bound: real)
    requires values != []
    ensures Lowest(values) > bound <==> forall i :: 0 <= i < |values| ==> values[i] > bound
  {
    if Lowest(values) > bound {
      forall i | 0 <= i < |values| ensures values[i] > bound {
        assert values[i] in values;
      }
    }
  }

  /** New entries are refused exactly when the rule is on, every symbol has enough sessions, and the averages, returns
      and the rule's own figure of the retained sessions are on the blocking side. */
  lemma VerdictIff(cfg: Config, ticks: seq<Tick>)
    requires ValidConfig(cfg)
    ensures !Allows(cfg, WatchFrom(cfg, Initial(cfg), ticks)) <==> Refuses(cfg, Retained(cfg, ticks))
  {
    if !cfg.rule.Off? {
      var kept, deques := Retained(cfg, ticks), DequesOf(cfg, WatchFrom(cfg, Initial(cfg), ticks));
      forall i | 0 <= i < |kept| ensures DescribesAll(Figures(), kept[i], deques[i]) {
        DequesDescribe(cfg, ticks, i);
      }
      DescribedVerdict(Figures(), cfg, kept, deques);
    }
  }

  /** The last returns, as many as there are up to `lookback`, compound to a quotient of two closes, less one. */
  ghost predicate IsQuotient(lookback: nat, rets: seq<real>, closes: seq<real>) {
    var n, k := |closes| - 1, |rets|;
    && k == (if n <= lookback then n else lookback) && 0 <= n - k && closes[n - k] > 0.0
    && Compound(rets) == closes[n] / closes[n - k] - 1.0
  }

  /** With positive prices the compounded return of the retained sessions is last close over first, less one. */
  lemma RetainedReturn(cfg: Config, ticks: seq<Tick>, i: nat)
    requires ValidConfig(cfg) && !cfg.rule.Off? && i < |cfg.symbols|
    requires Positive(OwnBars(cfg.symbols[i], ticks)) && Finished(OwnBars(cfg.symbols[i], ticks)) != []
    ensures IsQuotient(cfg.lookback, Column(Change, Retained(cfg, ticks)[i]),
                       Closes(Finished(OwnBars(cfg.symbols[i], ticks))))
  {
    var bars := OwnBars(cfg.symbols[i], ticks);
    RetainedChanges(cfg, ticks, i);
    TrailingReturnTelescopes(cfg.lookback, bars);
    TelescopedQuotient(cfg.lookback, Column(Change, Retained(cfg, ticks)[i]), Closes(Finished(bars)));
  }

  lemma RetainedChanges(cfg: Config, ticks: seq<Tick>, i: nat)
    requires ValidConfig(cfg) && !cfg.rule.Off? && i < |cfg.symbols|
    ensures Returns(ObserveAll(cfg.lookback, OwnBars(cfg.symbols[i], ticks)).completed)
         == Column(Change, Retained(cfg, ticks)[i])
  {
    WatchProjects(cfg, ticks, cfg.symbols[i]);
    DequesDescribe(cfg, ticks, i);
    var s := ObserveAll(cfg.lookback, OwnBars(cfg.symbols[i], ticks));
    ColumnsAgree(Figures(), Retained(cfg, ticks)[i], s.completed);
  }

  lemma TelescopedQuotient(lookback: nat, rets: seq<real>, closes: seq<real>)
    requires Telescopes(lookback, rets, closes)
    ensures IsQuotient(lookback, rets, closes)
  {
    var n, k := |closes| - 1, |rets|;
    IsReturnIff(closes[n - k], closes[n], Compound(rets));
  }

  lemma DescribedVerdict(m: Measures, cfg: Config, kept: seq<seq<Day>>, deques: seq<seq<Completed>>)
    requires ValidConfig(cfg) && !cfg.rule.Off? && Described(m, kept, deques)
    ensures var snapshot := Snapshot(cfg, deques);
            snapshot.Some? && Blocks(cfg, snapshot.value) <==> RefusesBy(m, cfg, kept)
  {
    if kept != [] && forall i :: 0 <= i < |kept| ==> |kept[i]| >= cfg.minHistory {
      SnapshotAgrees(m, cfg, kept, deques);
      BlocksIff(m, cfg, kept, Snapshot(cfg, deques).value);
    } else if kept != [] {
      var i :| 0 <= i < |kept| && |kept[i]| < cfg.minHistory;
      assert DescribesAll(m, kept[i], deques[i]);
    }
  }

  lemma BlocksIff(m: Measures, cfg: Config, kept: seq<seq<Day>>, f: Features)
    requires kept != [] && !cfg.rule.Off? && forall i :: 0 <= i < |kept| ==> |kept[i]| >= cfg.minHistory
    requires f.meanRange == Mean(Averages(m.range, kept)) && f.meanAsiaShare == Mean(Averages(m.share, kept))
    requires f.minReturn == Lowest(Trailing(m, kept)) && f.meanVol == Mean(Volatilities(cfg, m.change, kept))
    requires f.meanChurn == if ChurnAverages(m, kept) != [] then Some(Mean(ChurnAverages(m, kept))) else None
    ensures Blocks(cfg, f) <==> RefusesBy(m, cfg, kept)
  {
    MeanBounds(Averages(m.range, kept), cfg.rangeMin);
    MeanBounds(Averages(m.share, kept), cfg.asiaShareMax);
    MeanBounds(Volatilities(cfg, m.change, kept), cfg.volMax);
    if ChurnAverages(m, kept) != [] {
      MeanBounds(ChurnAverages(m, kept), cfg.churnMin);
    }
    TrailingExceeds(m, kept, cfg.returnFloor);
    ClauseByClause(m, cfg, kept, f);
  }

  lemma TrailingExceeds(m: Measures, kept: seq<seq<Day>>, bound: real)
    requires kept != []
    ensures Lowest(Trailing(m, kept)) > bound
       <==> forall i :: 0 <= i < |kept| ==> Compound(Column(m.change, kept[i])) > bound
  {
    LowestExceeds(Trailing(m, kept), bound);
    assert forall i :: 0 <= i < |kept| ==> Trailing(m, kept)[i] == Compound(Column(m.change, kept[i]));
  }

  lemma ClauseByClause(m: Measures, cfg: Config, kept: seq<seq<Day>>, f: Features)
    requires kept != [] && !cfg.rule.Off? && forall i :: 0 <= i < |kept| ==> |kept[i]| >= cfg.minHistory
    requires f.meanRange >= cfg.rangeMin <==> AtLeastOnAverage(Averages(m.range, kept), cfg.rangeMin)
    requires f.meanAsiaShare <= cfg.asiaShareMax <==> AtMostOnAverage(Averages(m.share, kept), cfg.asiaShareMax)
    requires f.minReturn > cfg.returnFloor
        <==> forall i :: 0 <= i < |kept| ==> Compound(Column(m.change, kept[i])) > cfg.returnFloor
    requires f.meanVol <= cfg.volMax <==> AtMostOnAverage(Volatilities(cfg, m.change, kept), cfg.volMax)
    requires f.meanChurn.Some? <==> ChurnAverages(m, kept) != []
    requires f.meanChurn.Some? ==>
               (f.meanChurn.value >= cfg.churnMin <==> AtLeastOnAverage(ChurnAverages(m, kept), cfg.churnMin))
    ensures Blocks(cfg, f) <==> RefusesBy(m, cfg, kept)
  {
    match cfg.rule
    case Off =>
    case Hard14 =>
    case HardChurn225 =>
    case Hard14CcVol17 =>
  }

  /** The gate object: a state per watched symbol, updated bar by bar; `ticks` records the run. */
  class TrailingRegimeGate {
    const cfg: Config
    var states: States
    ghost var ticks: seq<Tick>

    ghost predicate Valid()
      reads this
    {
      ValidConfig(cfg) && states == WatchFrom(cfg, Initial(cfg), ticks)
    }

    constructor (cfg: Config)
      requires ValidConfig(cfg)
      ensures Valid() && this.cfg == cfg && ticks == []
    {
      this.cfg := cfg;
      states, ticks := Initial(cfg), [];
    }

    method Update(symbol: string, bar: Bar)
      requires Valid()
      modifies this
      ensures Valid() && ticks == old(ticks) + [Tick(symbol, bar)]
    {
      ticks := ticks + [Tick(symbol, bar)];
      assert ticks[..|ticks| - 1] == old(ticks);
      if cfg.rule.Off? || symbol !in states {
        return;
      }
      var state := states[symbol];
      if state.current.None? {
        state := state.(current := Some(Accumulator.FromBar(bar)));
      } else if bar.session != state.current.value.session {
        state := FinalizeCurrent(state);
        state := state.(current := Some(Accumulator.FromBar(bar)));
      } else {
        state := state.(current := Some(state.current.value.Updated(bar)));
      }
      states := states[symbol := state];
    }

    method FinalizeCurrent(state: SymbolState) returns (r: SymbolState)
      requires state.current.Some?
      ensures r == Finalize(cfg.lookback, state)
    {
      var done := state.current.value.Complete(state.previousClose);
      r := state.(previousClose := Some(state.current.value.close));
      if done.None? {
        return;
      }
      var completed := state.completed + [done.value];
      while |completed| > cfg.lookback
        invariant LastN(completed, cfg.lookback) == LastN(state.completed + [done.value], cfg.lookback)
        decreases |completed|
      {
        completed := completed[1..];
      }
      r := r.(completed := completed);
    }

    method AllowsNewEntries() returns (allowed: bool)
      requires Valid()
      ensures allowed <==> !Refuses(cfg, Retained(cfg, ticks))
    {
      VerdictIff(cfg, ticks);
      if cfg.rule.Off? {
        return true;
      }
      var snapshot := Snapshot(cfg, DequesOf(cfg, states));
      return snapshot.None? || !Blocks(cfg, snapshot.value);
    }
  }
}
