/** What the ACD opening range of strategies/research/precious_metal_microtrend_acd_switch.py covers. Its bar count
    advances only on bars on which the strategy is still flat after the microtrend decision. */
module OpeningRange {
  import opened Optional
  import opened Reals
  import opened MicrotrendAcd

  /** The bar gets past the duplicate guard. */
  ghost predicate Counts(s: State, bar: Bar) { bar.own && s.lastTime != Some(bar.end) }

  /** The bars of the current session, in order. */
  ghost function SessionBars(c: Config, bars: seq<Bar>): seq<Bar> {
    if bars == [] then []
    else
      var init, bar := bars[..|bars| - 1], bars[|bars| - 1];
      if !Counts(Run(c, init), bar) then SessionBars(c, init)
      else if Run(c, init).session == Some(bar.session) then SessionBars(c, init) + [bar]
      else [bar]
  }

  function High(bar: Bar): real { bar.high }
  function Low(bar: Bar): real { bar.low }

  /** The range over the first bars of a session, at most `n` of them. */
  ghost function RangeOf(session: seq<Bar>, n: nat): (Option<real>, Option<real>) {
    var first := if |session| <= n then session else session[..n];
    if first == [] then (None, None) else (Some(HighestOf(High, first)), Some(LowestOf(Low, first)))
  }

  /** Until the range is complete the strategy is flat and every bar of the session has entered it. */
  ghost predicate Gathering(c: Config, s: State, session: seq<Bar>) {
    && s.index == |session|
    && (s.acd.high, s.acd.low) == RangeOf(session, c.rangeBars)
    && (s.acd.complete <==> |session| >= c.rangeBars)
    && s.acd.bars <= s.index
    && (!s.acd.complete ==> s.side == 0 && s.acd.bars == s.index)
    && (s.acd.complete ==> s.acd.bars >= c.rangeBars)
  }

  lemma {:induction false} RangeGrows(session: seq<Bar>, bar: Bar, n: nat)
    requires |session| < n
    ensures RangeOf(session + [bar], n)
         == (Some(if session == [] then bar.high else Max(HighestOf(High, session), bar.high)),
             Some(if session == [] then bar.low else Min(LowestOf(Low, session), bar.low)))
  {
    ColumnExtremesOfOne(High, bar);
    ColumnExtremesOfOne(Low, bar);
    if session == [] {
      assert session + [bar] == [bar];
    } else {
      ColumnExtremesConcat(High, session, [bar]);
      ColumnExtremesConcat(Low, session, [bar]);
    }
  }

  lemma RangeStays(session: seq<Bar>, bar: Bar, n: nat)
    requires |session| >= n
    ensures RangeOf(session + [bar], n) == RangeOf(session, n)
  {
    assert (session + [bar])[..n] == session[..n];
  }

  /** What one counted bar finds after the rolls: the session so far, without the bar. */
  ghost predicate Rolled(c: Config, r: State, session: seq<Bar>) {
    && r.index == |session| + 1
    && (r.acd.high, r.acd.low) == RangeOf(session, c.rangeBars)
    && (r.acd.complete <==> |session| >= c.rangeBars)
    && r.acd.bars <= |session|
    && (!r.acd.complete ==> r.side == 0 && r.acd.bars == |session|)
    && (r.acd.complete ==> r.acd.bars >= c.rangeBars)
  }

  lemma RollGathers(c: Config, s: State, bar: Bar, session: seq<Bar>)
    requires ValidConfig(c) && Discipline(c, s) && SameSession(s) && Gathering(c, s, session)
    ensures Rolled(c, Roll(s, bar), if s.session == Some(bar.session) then session else [])
  {
    if s.source.Some? {
      match s.source.value
      case Micro =>
      case Acd =>
    }
  }

  lemma ManageGathers(c: Config, r: State, bar: Bar, session: seq<Bar>)
    requires Discipline(c, r) && Rolled(c, r, session)
    ensures Rolled(c, Manage(c, r, bar), session)
  {
    ManageLedger(c, r, bar);
  }

  lemma DecideGathers(c: Config, m: State, bar: Bar, session: seq<Bar>)
    requires ValidConfig(c) && c.microNeedsRange && Rolled(c, m, session)
    ensures Gathering(c, Decide(c, m, bar), session + [bar])
  {
    if |session| < c.rangeBars {
      RangeGrows(session, bar, c.rangeBars);
    } else {
      RangeStays(session, bar, c.rangeBars);
    }
  }

  /** When microtrend entries need a complete opening range, it is in every run the range of the first bars of the
      session. */
  lemma {:induction false} RangeIsFirstBars(c: Config, bars: seq<Bar>)
    requires ValidConfig(c) && c.microNeedsRange
    ensures Gathering(c, Run(c, bars), SessionBars(c, bars))
  {
    if bars != [] {
      var init, bar := bars[..|bars| - 1], bars[|bars| - 1];
      var s, session := Run(c, init), SessionBars(c, init);
      RangeIsFirstBars(c, init);
      RunKeepsDiscipline(c, init);
      RunKeepsHistory(c, init);
      if Counts(s, bar) {
        var before := if s.session == Some(bar.session) then session else [];
        RollGathers(c, s, bar, session);
        RollKeeps(c, s, bar);
        ManageGathers(c, Roll(s, bar), bar, before);
        DecideGathers(c, Manage(c, Roll(s, bar), bar), bar, before);
        assert [] + [bar] == [bar];
      }
    }
  }

  // ---------------------------------------------------------------- bars that do not enter the range

  /** The bar finds a position held, or opens a microtrend position. */
  ghost predicate Skips(c: Config, s: State, bar: Bar) {
    var m := Manage(c, Roll(s, bar), bar);
    m.side != 0 || TryMicro(c, m, bar).side != 0
  }

  /** How many bars of the current session did not enter the range. */
  ghost function Skipped(c: Config, bars: seq<Bar>): nat {
    if bars == [] then 0
    else
      var init, bar := bars[..|bars| - 1], bars[|bars| - 1];
      var s := Run(c, init);
      if !Counts(s, bar) then Skipped(c, init)
      else (if s.session == Some(bar.session) then Skipped(c, init) else 0) + (if Skips(c, s, bar) then 1 else 0)
  }

  /** How one counted bar moves the two counters. */
  lemma CounterStep(c: Config, s: State, bar: Bar)
    requires ValidConfig(c) && Discipline(c, s) && SameSession(s) && Counts(s, bar)
    requires s.acd.complete <==> s.acd.bars >= c.rangeBars
    ensures var r, same := OnBar(c, s, bar), s.session == Some(bar.session);
            && r.index == (if same then s.index else 0) + 1
            && r.acd.bars == (if same then s.acd.bars else 0) + (if Skips(c, s, bar) then 0 else 1)
            && (r.acd.complete <==> r.acd.bars >= c.rangeBars)
  {
    RollCounters(c, s, bar);
    RollKeeps(c, s, bar);
    ManageLedger(c, Roll(s, bar), bar);
    DecideCounters(c, Manage(c, Roll(s, bar), bar), bar);
  }

  lemma RollCounters(c: Config, s: State, bar: Bar)
    requires Discipline(c, s) && SameSession(s)
    ensures var r, same := Roll(s, bar), s.session == Some(bar.session);
            && r.index == (if same then s.index else 0) + 1
            && (if same then r.acd == s.acd else r.acd.bars == 0 && !r.acd.complete)
  {
    if s.source.Some? {
      match s.source.value
      case Micro =>
      case Acd =>
    }
  }

  lemma DecideCounters(c: Config, m: State, bar: Bar)
    requires ValidConfig(c) && (m.acd.complete <==> m.acd.bars >= c.rangeBars)
    ensures var r := Decide(c, m, bar);
            && r.index == m.index
            && r.acd.bars == m.acd.bars + (if m.side != 0 || TryMicro(c, m, bar).side != 0 then 0 else 1)
            && (r.acd.complete <==> r.acd.bars >= c.rangeBars)
  {
  }

  /** In every run each bar of the session has entered the range count or was skipped. */
  lemma {:induction false} CountersAgree(c: Config, bars: seq<Bar>)
    requires ValidConfig(c)
    ensures var s := Run(c, bars);
            s.index == s.acd.bars + Skipped(c, bars) && (s.acd.complete <==> s.acd.bars >= c.rangeBars)
  {
    if bars != [] {
      var init, bar := bars[..|bars| - 1], bars[|bars| - 1];
      CountersAgree(c, init);
      RunKeepsDiscipline(c, init);
      RunKeepsHistory(c, init);
      if Counts(Run(c, init), bar) {
        CounterStep(c, Run(c, init), bar);
      }
    }
  }

  /** After the first `rangeBars` bars of a session the range is complete exactly when no position was held on, or
      opened by the microtrend source on, any of them. */
  lemma RangeCompleteIff(c: Config, bars: seq<Bar>)
    requires ValidConfig(c) && Run(c, bars).index == c.rangeBars
    ensures Run(c, bars).acd.complete <==> Skipped(c, bars) == 0
  {
    CountersAgree(c, bars);
  }

  // ---------------------------------------------------------------- the configurations that delay it

  /** In every run the opening range is complete after the first bars of a session. */
  ghost predicate CompletesInTime(c: Config) {
    forall bars :: Run(c, bars).index == c.rangeBars ==> Run(c, bars).acd.complete
  }

  /** One session of `k` bars, the first with a microtrend signal. */
  ghost function SignalFirst(k: nat): seq<Bar> {
    seq(k, i => Bar(true, i, "s", 1.0, 1.0, 1.0, if i == 0 then Some(Signal(true, 1.0)) else None))
  }

  /** The entry on the first bar keeps that bar out of the range. */
  lemma {:induction false} EntryDelaysRange(c: Config, k: nat)
    requires ValidConfig(c) && !c.microNeedsRange && k > 0
    ensures var s := Run(c, SignalFirst(k));
            s.session == Some("s") && s.lastTime == Some(k - 1) && s.index == k && Skipped(c, SignalFirst(k)) > 0
  {
    var bars := SignalFirst(k);
    assert bars[..k - 1] == SignalFirst(k - 1);
    RunKeepsDiscipline(c, SignalFirst(k - 1));
    RunKeepsHistory(c, SignalFirst(k - 1));
    CountersAgree(c, SignalFirst(k - 1));
    var s := Run(c, SignalFirst(k - 1));
    if k > 1 {
      EntryDelaysRange(c, k - 1);
    } else {
      assert s == START;
      assert Manage(c, Roll(s, bars[0]), bars[0]).side == 0;
    }
    CounterStep(c, s, bars[k - 1]);
    OnBarHistory(c, s, bars[k - 1]);
    BarTime(c, s, bars[k - 1]);
  }

  lemma BarTime(c: Config, s: State, bar: Bar)
    requires Counts(s, bar)
    ensures OnBar(c, s, bar).lastTime == Some(bar.end)
  {
    var r := Roll(s, bar);
    assert r.lastTime == Some(bar.end);
    ManageTime(c, r, bar);
    DecideTime(c, Manage(c, r, bar), bar);
  }

  lemma ManageTime(c: Config, s: State, bar: Bar)
    ensures Manage(c, s, bar).lastTime == s.lastTime
  {
  }

  lemma DecideTime(c: Config, s: State, bar: Bar)
    ensures Decide(c, s, bar).lastTime == s.lastTime
  {
  }

  /** The opening range is complete after the first bars of every session, in every run, if and only if microtrend
      entries have to wait for it. */
  lemma CompletesInTimeIff(c: Config)
    requires ValidConfig(c)
    ensures CompletesInTime(c) <==> c.microNeedsRange
  {
    if c.microNeedsRange {
      forall bars | Run(c, bars).index == c.rangeBars ensures Run(c, bars).acd.complete {
        RangeIsFirstBars(c, bars);
      }
    } else {
      EntryDelaysRange(c, c.rangeBars);
      RangeCompleteIff(c, SignalFirst(c.rangeBars));
    }
  }
}
