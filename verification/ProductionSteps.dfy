/** What one bar does to the production strategy, strategies/production/vwap_production_pullback.py, in terms of the
    bar's own prices and the VWAPs of its session. */
module ProductionSteps {
  import opened Optional
  import opened Reals
  import opened Sequences
  import opened Deques
  import opened Intents
  import opened ProductionPullback

  // ---------------------------------------------------------------- the slope

  /** The session of the last bar of the traded instrument. */
  ghost function CurrentSession(bars: seq<Bar>): Option<string> {
    if bars == [] then None
    else if Last(bars).own then Last(bars).session else CurrentSession(bars[..|bars| - 1])
  }

  /** The VWAPs of that session so far. */
  ghost function SessionVwaps(bars: seq<Bar>): seq<real> {
    if bars == [] then []
    else
      var init, bar := bars[..|bars| - 1], Last(bars);
      if !bar.own then SessionVwaps(init)
      else
        (if bar.session == CurrentSession(init) then SessionVwaps(init) else [])
        + (match bar.vwap case None => [] case Some(v) => [v])
  }

  lemma {:induction false} HistoryIs(cfg: Config, bars: seq<Bar>)
    requires ValidConfig(cfg)
    ensures var s := RunAll(cfg, bars).strategy;
            s.session == CurrentSession(bars) && s.history == LastN(SessionVwaps(bars), cfg.slopeLookback)
  {
    if bars != [] {
      var init, bar := bars[..|bars| - 1], Last(bars);
      HistoryIs(cfg, init);
      SessionKept(cfg, RunAll(cfg, init).strategy, bar);
      if bar.own && bar.vwap.Some? {
        var before := if bar.session == CurrentSession(init) then SessionVwaps(init) else [];
        LastNAppend(before, cfg.slopeLookback, bar.vwap.value);
        assert [] + [bar.vwap.value] == [bar.vwap.value];
      } else if bar.own {
        assert SessionVwaps(init) + [] == SessionVwaps(init);
      }
    }
  }

  /** Only the session update touches the session fields. */
  lemma SessionKept(cfg: Config, s: Strategy, bar: Bar)
    requires cfg.slopeLookback > 0
    ensures var r, u := OnBar(cfg, s, bar).0, if bar.own then UpdateSession(cfg, s, bar) else s;
            r.session == u.session && r.history == u.history
  {
    if Processed(bar) {
      var u := UpdateSession(cfg, s, bar);
      PullbackKept(cfg, u, bar);
      RejectionKept(cfg, u, bar);
    }
  }

  lemma PullbackKept(cfg: Config, s: Strategy, bar: Bar)
    requires Processed(bar)
    ensures var r := StepPullback(cfg, s, bar, bar.vwap.value, bar.atr.value);
            r.session == s.session && r.history == s.history
  {
  }

  lemma RejectionKept(cfg: Config, s: Strategy, bar: Bar)
    requires Processed(bar)
    ensures var r := StepRejection(cfg, s, bar, bar.vwap.value, bar.atr.value).0;
            r.session == s.session && r.history == s.history
  {
  }

  /** Which step a processed bar of a strategy without a position takes. */
  lemma StepTaken(cfg: Config, s: Strategy, bar: Bar)
    requires cfg.slopeLookback > 0 && !s.phase.Entered? && Processed(bar)
    ensures var u, v, atr := UpdateSession(cfg, s, bar), bar.vwap.value, bar.atr.value;
            OnBar(cfg, s, bar)
            == if !bar.gateAllows then (Reset(u), None)
               else
                 match s.phase
                 case Idle => (StepIdle(cfg, u, bar, v), None)
                 case WaitPullback => (StepPullback(cfg, u, bar, v, atr), None)
                 case WaitRejection => StepRejection(cfg, u, bar, v, atr)
  {
  }

  /** Twenty o'clock to two, Eastern time. */
  ghost predicate InHours(bar: Bar) { !(120 <= bar.minute < 1200) }

  /** The VWAP is known over the lookback and rises, or falls or stands, from its first to its last value. */
  ghost predicate Slopes(cfg: Config, bars: seq<Bar>, up: bool)
    requires cfg.slopeLookback > 0
  {
    var v := SessionVwaps(bars);
    |v| >= cfg.slopeLookback && (up <==> v[|v| - 1] > v[|v| - cfg.slopeLookback])
  }

  /** An idle strategy is armed exactly by an allowed bar in hours, above a rising VWAP for a long position, below one
      that does not rise for a short one. */
  lemma ArmsIff(cfg: Config, bars: seq<Bar>, bar: Bar)
    requires ValidConfig(cfg) && RunAll(cfg, bars).strategy.phase.Idle? && Processed(bar)
    ensures var s := RunAll(cfg, bars + [bar]).strategy;
            var open := bar.gateAllows && InHours(bar);
            var long := open && Slopes(cfg, bars + [bar], true) && bar.close > bar.vwap.value;
            var short := open && Slopes(cfg, bars + [bar], false) && bar.close < bar.vwap.value;
            && (s.phase == WaitPullback <==> long || short) && (s.phase == Idle <==> !long && !short)
            && (long ==> s.side == Some(Long)) && (short ==> s.side == Some(Short))
  {
    var s := RunAll(cfg, bars).strategy;
    OneMoreBar(cfg, bars, bar);
    RunKeepsPosition(cfg, bars);
    HistoryIs(cfg, bars + [bar]);
    SessionKept(cfg, s, bar);
    SlopeOfHistory(cfg, bars + [bar], UpdateSession(cfg, s, bar).history, true);
    SlopeOfHistory(cfg, bars + [bar], UpdateSession(cfg, s, bar).history, false);
    IdleStep(cfg, s, bar);
  }

  lemma OneMoreBar(cfg: Config, bars: seq<Bar>, bar: Bar)
    requires cfg.slopeLookback > 0
    ensures RunAll(cfg, bars + [bar]).strategy == OnBar(cfg, RunAll(cfg, bars).strategy, bar).0
  {
    assert (bars + [bar])[..|bars|] == bars;
  }

  lemma SlopeOfHistory(cfg: Config, bars: seq<Bar>, h: seq<real>, up: bool)
    requires cfg.slopeLookback > 0 && h == LastN(SessionVwaps(bars), cfg.slopeLookback)
    ensures Slopes(cfg, bars, up) <==> |h| >= cfg.slopeLookback && (up <==> h[|h| - 1] > h[0])
  {
  }

  lemma IdleStep(cfg: Config, s: Strategy, bar: Bar)
    requires ValidConfig(cfg) && PhaseInvariant(cfg, s) && s.phase.Idle? && Processed(bar)
    ensures var h, r := UpdateSession(cfg, s, bar).history, OnBar(cfg, s, bar).0;
            var open := bar.gateAllows && InHours(bar) && |h| >= cfg.slopeLookback;
            var long := open && h[|h| - 1] > h[0] && bar.close > bar.vwap.value;
            var short := open && !(h[|h| - 1] > h[0]) && bar.close < bar.vwap.value;
            && (r.phase == WaitPullback <==> long || short) && (r.phase == Idle <==> !long && !short)
            && (long ==> r.side == Some(Long)) && (short ==> r.side == Some(Short))
  {
    StepTaken(cfg, s, bar);
  }

  // ---------------------------------------------------------------- waiting

  /** The close is too far on the wrong side of the VWAP. */
  ghost predicate Broken(cfg: Config, side: Side, bar: Bar)
    requires Processed(bar)
  {
    var v, d := bar.vwap.value, bar.atr.value * cfg.breakAtr;
    match side
    case Long => bar.close < v - d
    case Short => bar.close > v + d
  }

  /** The bar comes back to the VWAP: its low for a long position, its high for a short one. */
  ghost predicate Touches(cfg: Config, side: Side, bar: Bar)
    requires Processed(bar)
  {
    var v, below, above := bar.vwap.value, bar.atr.value * cfg.touchBelow, bar.atr.value * cfg.touchAbove;
    match side
    case Long => v - below <= bar.low && bar.low <= v + above
    case Short => v - above <= bar.high && bar.high <= v + below
  }

  /** A strategy that waits for the pullback gives up, goes on or keeps waiting. */
  lemma PullbackIff(cfg: Config, s: Strategy, bar: Bar)
    requires ValidConfig(cfg) && PhaseInvariant(cfg, s) && s.phase.WaitPullback? && Processed(bar)
    ensures var (r, intent) := OnBar(cfg, s, bar);
            var gives := !bar.gateAllows || s.wait >= cfg.maxWait || !InHours(bar) || Broken(cfg, s.side.value, bar);
            && intent == None
            && (r.phase == Idle <==> gives)
            && (r.phase == WaitRejection <==> !gives && Touches(cfg, s.side.value, bar))
            && (r.phase == WaitPullback <==> !gives && !Touches(cfg, s.side.value, bar))
            && (!gives ==> r.side == s.side)
            && (r.phase == WaitRejection && s.side == Some(Long) ==> r.pullbackLow == Some(bar.low))
            && (r.phase == WaitRejection && s.side == Some(Short) ==> r.pullbackHigh == Some(bar.high))
  {
    StepTaken(cfg, s, bar);
    match s.side.value
    case Long =>
    case Short =>
  }

  /** The bar turns away from the VWAP, with volume and the confirmations. */
  ghost predicate TurnsAway(side: Side, bar: Bar)
    requires Processed(bar)
  {
    && bar.volumeConfirms && bar.confirmed
    && match side
       case Long => bar.close > bar.vwap.value && bar.close > bar.open
       case Short => bar.close < bar.vwap.value && bar.close < bar.open
  }

  /** The prices and the intent of an entry. */
  ghost predicate IsEntry(cfg: Config, side: Side, bar: Bar, s: Strategy, intent: Option<Intent>)
    requires Processed(bar)
  {
    var d := bar.atr.value * cfg.stopAtr;
    && s.entry.Some? && s.stop.Some? && s.target.Some? && s.entry.value == bar.close && s.side == Some(side)
    && match side
       case Long =>
         && s.stop.value == bar.close - d && s.target.value == bar.close + d * cfg.targetR
         && intent == Some(Target(cfg.quantity))
       case Short =>
         && s.stop.value == bar.close + d && s.target.value == bar.close - d * cfg.targetR
         && intent == Some(Target(-cfg.quantity))
  }

  /** The pullback extreme after the bar; one of exactly zero counts as not set. */
  ghost predicate IsExtreme(s: Strategy, r: Strategy, bar: Bar) {
    && (s.side == Some(Long) ==>
          && r.pullbackLow.Some? && r.pullbackLow.value <= bar.low
          && (r.pullbackLow.value == bar.low || r.pullbackLow == s.pullbackLow)
          && (s.pullbackLow.Some? && s.pullbackLow.value != 0.0 ==> r.pullbackLow.value <= s.pullbackLow.value))
    && (s.side == Some(Short) ==>
          && r.pullbackHigh.Some? && r.pullbackHigh.value >= bar.high
          && (r.pullbackHigh.value == bar.high || r.pullbackHigh == s.pullbackHigh)
          && (s.pullbackHigh.Some? && s.pullbackHigh.value != 0.0 ==> r.pullbackHigh.value >= s.pullbackHigh.value))
  }

  /** A strategy that waits for the rejection gives up, enters or keeps waiting. */
  lemma RejectionIff(cfg: Config, s: Strategy, bar: Bar)
    requires ValidConfig(cfg) && PhaseInvariant(cfg, s) && s.phase.WaitRejection? && Processed(bar)
    ensures var (r, intent) := OnBar(cfg, s, bar);
            var gives := !bar.gateAllows || s.wait >= cfg.maxWait || Broken(cfg, s.side.value, bar);
            && (r.phase == Idle <==> gives)
            && (r.phase == Entered <==> !gives && TurnsAway(s.side.value, bar))
            && (r.phase == WaitRejection <==> !gives && !TurnsAway(s.side.value, bar))
            && (if r.phase == Entered then IsEntry(cfg, s.side.value, bar, r, intent) else intent == None)
            && (r.phase == WaitRejection ==> IsExtreme(s, r, bar))
  {
    StepTaken(cfg, s, bar);
    RejectionStep(cfg, UpdateSession(cfg, s, bar), bar);
  }

  lemma RejectionStep(cfg: Config, s: Strategy, bar: Bar)
    requires s.side.Some? && s.phase.WaitRejection? && Processed(bar)
    ensures var (r, intent) := StepRejection(cfg, s, bar, bar.vwap.value, bar.atr.value);
            var gives := s.wait >= cfg.maxWait || Broken(cfg, s.side.value, bar);
            && (r.phase == Idle <==> gives)
            && (r.phase == Entered <==> !gives && TurnsAway(s.side.value, bar))
            && (r.phase == WaitRejection <==> !gives && !TurnsAway(s.side.value, bar))
            && (if r.phase == Entered then IsEntry(cfg, s.side.value, bar, r, intent) else intent == None)
            && (r.phase == WaitRejection ==> IsExtreme(s, r, bar))
  {
    match s.side.value
    case Long =>
      EntryPrices(cfg, s.(wait := s.wait + 1, pullbackLow := Some(Min(Or(s.pullbackLow, bar.low), bar.low))), bar);
    case Short =>
      EntryPrices(cfg, s.(wait := s.wait + 1, pullbackHigh := Some(Max(Or(s.pullbackHigh, bar.high), bar.high))), bar);
  }

  lemma EntryPrices(cfg: Config, s: Strategy, bar: Bar)
    requires s.side.Some? && Processed(bar)
    ensures var (r, intent) := EnterPosition(cfg, s, bar, bar.atr.value);
            r.phase == Entered && IsEntry(cfg, s.side.value, bar, r, intent)
  {
    match s.side.value
    case Long =>
    case Short =>
  }

  /** Half past four to five in the afternoon. */
  lemma CloseHours(bar: Bar)
    ensures NearSessionClose(bar) <==> 990 <= bar.minute <= 1020
  {
  }

  /** A bar that is not processed changes nothing but the session fields. */
  lemma UnprocessedKeeps(cfg: Config, s: Strategy, bar: Bar)
    requires cfg.slopeLookback > 0 && !Processed(bar)
    ensures var (r, intent) := OnBar(cfg, s, bar);
            intent == None && r == s.(session := r.session, history := r.history)
  {
  }
}
