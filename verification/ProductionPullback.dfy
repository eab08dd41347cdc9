/** The production VWAP pullback strategy, strategies/production/vwap_production_pullback.py.
    Indicator values, the regime gate's verdict and the entry confirmations are inputs. */
module ProductionPullback {
  import opened Optional
  import opened Reals
  import opened Intents
  import opened Deques

  datatype Phase = Idle | WaitPullback | WaitRejection | Entered

  datatype Config = Config(quantity: real, touchBelow: real, touchAbove: real, breakAtr: real, stopAtr: real,
                           targetR: real, exitOnVwapCross: bool, maxWait: nat, slopeLookback: nat)

  ghost predicate ValidConfig(cfg: Config) {
    && cfg.quantity > 0.0 && cfg.touchBelow > 0.0 && cfg.breakAtr > 0.0 && cfg.stopAtr > 0.0 && cfg.targetR > 0.0
    && cfg.maxWait > 0 && cfg.slopeLookback > 0
  }

  /** One bar as the strategy sees it: `own` tells whether it is of the traded instrument, `minute`
      is the Eastern minute of day of its end, and the last three are verdicts on it. */
  datatype Bar = Bar(own: bool, session: Option<string>, minute: int,
                     open: real, high: real, low: real, close: real,
                     ready: bool, vwap: Option<real>, atr: Option<real>,
                     gateAllows: bool, volumeConfirms: bool, confirmed: bool)

  datatype Strategy = Strategy(phase: Phase, side: Option<Side>, pullbackLow: Option<real>, pullbackHigh: Option<real>,
                               wait: nat, entry: Option<real>, stop: Option<real>, target: Option<real>,
                               session: Option<string>, history: seq<real>)

  const START := Strategy(Idle, None, None, None, 0, None, None, None, None, [])

  // ---------------------------------------------------------------- one bar

  function Reset(s: Strategy): Strategy {
    s.(phase := Idle, side := None, pullbackLow := None, pullbackHigh := None, wait := 0,
       entry := None, stop := None, target := None)
  }

  function EnterPhase(s: Strategy, phase: Phase, side: Side): Strategy {
    s.(phase := phase, side := Some(side), wait := 0)
  }

  /** The Asian entry window; the cool-off after the session open is fixed at zero minutes. */
  predicate TimeAllowed(bar: Bar) { bar.minute >= 20 * 60 || bar.minute < 2 * 60 }

  predicate NearSessionClose(bar: Bar) { 0 <= 17 * 60 - bar.minute <= 30 }

  function UpdateSession(cfg: Config, s: Strategy, bar: Bar): Strategy {
    var history := if bar.session != s.session then [] else s.history;
    s.(session := bar.session,
       history := if bar.vwap.Some? then LastN(history + [bar.vwap.value], cfg.slopeLookback) else history)
  }

  /** Rising, falling, or not known yet; a flat VWAP counts as falling. */
  function SlopeUp(cfg: Config, s: Strategy): Option<bool>
    requires cfg.slopeLookback > 0
  {
    if |s.history| < cfg.slopeLookback then None else Some(s.history[|s.history| - 1] > s.history[0])
  }

  /** Python's `value or default`, for which a zero counts as absent. */
  function Or(value: Option<real>, default: real): real {
    if value.None? || value.value == 0.0 then default else value.value
  }

  function StepIdle(cfg: Config, s: Strategy, bar: Bar, vwap: real): Strategy
    requires cfg.slopeLookback > 0
  {
    if !TimeAllowed(bar) then s
    else if SlopeUp(cfg, s) == Some(true) && bar.close > vwap then EnterPhase(s, WaitPullback, Long)
    else if SlopeUp(cfg, s) == Some(false) && bar.close < vwap then EnterPhase(s, WaitPullback, Short)
    else s
  }

  predicate ThesisBroken(cfg: Config, s: Strategy, bar: Bar, vwap: real, atr: real) {
    if s.side == Some(Long) then bar.close < vwap - atr * cfg.breakAtr else bar.close > vwap + atr * cfg.breakAtr
  }

  function StepPullback(cfg: Config, s: Strategy, bar: Bar, vwap: real, atr: real): Strategy {
    var s := s.(wait := s.wait + 1);
    if s.wait > cfg.maxWait || !TimeAllowed(bar) || ThesisBroken(cfg, s, bar, vwap, atr) then Reset(s)
    else if s.side == Some(Long) then
      if vwap - atr * cfg.touchBelow <= bar.low <= vwap + atr * cfg.touchAbove
      then EnterPhase(s.(pullbackLow := Some(bar.low)), WaitRejection, Long) else s
    else
      if vwap - atr * cfg.touchAbove <= bar.high <= vwap + atr * cfg.touchBelow
      then EnterPhase(s.(pullbackHigh := Some(bar.high)), WaitRejection, Short) else s
  }

  predicate Rejects(s: Strategy, bar: Bar, vwap: real) {
    && bar.volumeConfirms
    && if s.side == Some(Long) then bar.close > vwap && bar.close > bar.open
       else bar.close < vwap && bar.close < bar.open
  }

  function StepRejection(cfg: Config, s: Strategy, bar: Bar, vwap: real, atr: real): (Strategy, Option<Intent>) {
    var s := s.(wait := s.wait + 1);
    if s.wait > cfg.maxWait then (Reset(s), None)
    else
      var s := if s.side == Some(Long) then s.(pullbackLow := Some(Min(Or(s.pullbackLow, bar.low), bar.low)))
               else s.(pullbackHigh := Some(Max(Or(s.pullbackHigh, bar.high), bar.high)));
      if ThesisBroken(cfg, s, bar, vwap, atr) then (Reset(s), None)
      else if Rejects(s, bar, vwap) && bar.confirmed then EnterPosition(cfg, s, bar, atr)
      else (s, None)
  }

  function StopDistance(cfg: Config, atr: real): real { atr * cfg.stopAtr }

  function TargetDistance(cfg: Config, atr: real): real { StopDistance(cfg, atr) * cfg.targetR }

  function EnterPosition(cfg: Config, s: Strategy, bar: Bar, atr: real): (Strategy, Option<Intent>) {
    var distance := StopDistance(cfg, atr);
    var reach := TargetDistance(cfg, atr);
    if s.side == Some(Long)
    then (s.(phase := Entered, wait := 0, entry := Some(bar.close), stop := Some(bar.close - distance),
             target := Some(bar.close + reach)), Some(Target(cfg.quantity)))
    else (s.(phase := Entered, wait := 0, entry := Some(bar.close), stop := Some(bar.close + distance),
             target := Some(bar.close - reach)), Some(Target(-cfg.quantity)))
  }

  /** Does the bar trigger an exit of the open position? */
  predicate ExitTouched(cfg: Config, s: Strategy, bar: Bar, vwap: real) {
    if s.side == Some(Long) then
      || (cfg.exitOnVwapCross && bar.close < vwap)
      || (s.stop.Some? && bar.low <= s.stop.value)
      || (s.target.Some? && bar.high >= s.target.value)
    else
      || (cfg.exitOnVwapCross && bar.close > vwap)
      || (s.stop.Some? && bar.high >= s.stop.value)
      || (s.target.Some? && bar.low <= s.target.value)
  }

  /** Bars that get past the readiness checks. */
  predicate Processed(bar: Bar) { bar.own && bar.ready && bar.vwap.Some? && bar.atr.Some? && bar.atr.value > 0.0 }

  function OnBar(cfg: Config, s: Strategy, bar: Bar): (Strategy, Option<Intent>)
    requires cfg.slopeLookback > 0
  {
    if !bar.own then (s, None)
    else
      var s := UpdateSession(cfg, s, bar);
      if !Processed(bar) then (s, None)
      else
        var vwap, atr := bar.vwap.value, bar.atr.value;
        if s.phase.Entered? && NearSessionClose(bar) then (Reset(s), Some(Close))
        else if !s.phase.Entered? && !bar.gateAllows then (Reset(s), None)
        else
          match s.phase
          case Idle => (StepIdle(cfg, s, bar, vwap), None)
          case WaitPullback => (StepPullback(cfg, s, bar, vwap, atr), None)
          case WaitRejection => StepRejection(cfg, s, bar, vwap, atr)
          case Entered => if ExitTouched(cfg, s, bar, vwap) then (Reset(s), Some(Close)) else (s, None)
  }

  // ---------------------------------------------------------------- runs

  /** What one bar did. */
  datatype Entry = Entry(bar: Bar, before: Phase, after: Phase, side: Option<Side>, intent: Option<Intent>)

  /** The strategy, what each bar did, the intents in order, and the index of the last arming bar. */
  datatype Run = Run(strategy: Strategy, log: seq<Entry>, intents: seq<Intent>, armed: nat)

  function RunStep(cfg: Config, r: Run, bar: Bar): Run
    requires cfg.slopeLookback > 0
  {
    var (s, intent) := OnBar(cfg, r.strategy, bar);
    Record(r, bar, s, intent)
  }

  function Record(r: Run, bar: Bar, s: Strategy, intent: Option<Intent>): Run {
    var e := Entry(bar, r.strategy.phase, s.phase, s.side, intent);
    Run(s, r.log + [e], if intent.Some? then r.intents + [intent.value] else r.intents,
        if e.before.Idle? && e.after.WaitPullback? then |r.log| else r.armed)
  }

  function RunAll(cfg: Config, bars: seq<Bar>): Run
    requires cfg.slopeLookback > 0
  {
    if bars == [] then Run(START, [], [], 0)
    else RunStep(cfg, RunAll(cfg, bars[..|bars| - 1]), bars[|bars| - 1])
  }

  /** Stop and target strictly bracket the entry, on the sides of the position. */
  ghost predicate Bracketed(s: Strategy) {
    && s.entry.Some? && s.stop.Some? && s.target.Some? && s.side.Some?
    && if s.side.value.Long? then s.stop.value < s.entry.value < s.target.value
       else s.target.value < s.entry.value < s.stop.value
  }

  ghost predicate Flat(s: Strategy) { s.entry.None? && s.stop.None? && s.target.None? }

  /** What holds in each phase. */
  ghost predicate PhaseInvariant(cfg: Config, s: Strategy) {
    match s.phase
    case Idle => Flat(s) && s.side.None? && s.pullbackLow.None? && s.pullbackHigh.None? && s.wait == 0
    case WaitPullback => Flat(s) && s.side.Some? && s.wait <= cfg.maxWait
    case WaitRejection => Flat(s) && s.side.Some? && s.wait <= cfg.maxWait
    case Entered => Bracketed(s) && s.wait == 0
  }

  function Signed(cfg: Config, side: Option<Side>): real {
    if side == Some(Long) then cfg.quantity else -cfg.quantity
  }

  ghost predicate PositionInvariant(cfg: Config, r: Run) {
    && PhaseInvariant(cfg, r.strategy) && Alternating(cfg.quantity, r.intents)
    && (r.strategy.phase.Entered? <==> |r.intents| % 2 == 1)
    && (r.strategy.phase.Entered? ==> r.intents[|r.intents| - 1] == Target(Signed(cfg, r.strategy.side)))
  }

  lemma DistancesPositive(cfg: Config, atr: real)
    requires ValidConfig(cfg) && atr > 0.0
    ensures StopDistance(cfg, atr) > 0.0 && TargetDistance(cfg, atr) > 0.0
  {
    var distance := StopDistance(cfg, atr);
    assert distance > 0.0;
    assert distance * cfg.targetR > 0.0;
  }

  /** How an intent relates to the phases before and after it. */
  ghost predicate Moves(cfg: Config, s: Strategy, s': Strategy, intent: Option<Intent>) {
    match intent
    case None => (s.phase.Entered? <==> s'.phase.Entered?) && (s.phase.Entered? ==> s'.side == s.side)
    case Some(Close) => s.phase.Entered? && s'.phase.Idle?
    case Some(Target(q)) =>
      s.phase.WaitRejection? && s'.phase.Entered? && s'.side == s.side && q == Signed(cfg, s.side)
  }

  lemma OnBarKeeps(cfg: Config, s: Strategy, bar: Bar)
    requires ValidConfig(cfg) && PhaseInvariant(cfg, s)
    ensures var (s', intent) := OnBar(cfg, s, bar);
            PhaseInvariant(cfg, s') && Moves(cfg, s, s', intent)
  {
    if Processed(bar) {
      DistancesPositive(cfg, bar.atr.value);
    }
  }

  lemma RecordKeepsPosition(cfg: Config, r: Run, bar: Bar, s: Strategy, intent: Option<Intent>)
    requires PositionInvariant(cfg, r) && PhaseInvariant(cfg, s) && Moves(cfg, r.strategy, s, intent)
    ensures PositionInvariant(cfg, Record(r, bar, s, intent))
  {
  }

  /** In every run: intents alternate, the position is open exactly after an entry, stop and target
      bracket it, and idle means cleared. */
  lemma {:induction false} RunKeepsPosition(cfg: Config, bars: seq<Bar>)
    requires ValidConfig(cfg)
    ensures PositionInvariant(cfg, RunAll(cfg, bars))
  {
    if bars != [] {
      var r, bar := RunAll(cfg, bars[..|bars| - 1]), bars[|bars| - 1];
      RunKeepsPosition(cfg, bars[..|bars| - 1]);
      OnBarKeeps(cfg, r.strategy, bar);
      var (s, intent) := OnBar(cfg, r.strategy, bar);
      RecordKeepsPosition(cfg, r, bar, s, intent);
    }
  }

  /** A position left open by a processed bar was touched by neither its stop nor its target,
      and the bar was not near the session close. */
  lemma OpenPositionUntouched(cfg: Config, s: Strategy, bar: Bar)
    requires ValidConfig(cfg) && PhaseInvariant(cfg, s) && s.phase.Entered? && Processed(bar)
    ensures var s' := OnBar(cfg, s, bar).0;
            s'.phase.Entered? <==>
              && !NearSessionClose(bar)
              && (cfg.exitOnVwapCross ==>
                    if s.side.value.Long? then bar.close >= bar.vwap.value else bar.close <= bar.vwap.value)
              && (if s.side.value.Long? then bar.low > s.stop.value && bar.high < s.target.value
                  else bar.high < s.stop.value && bar.low > s.target.value)
  {
  }

  // ---------------------------------------------------------------- from arming to entry

  ghost function CountProcessed(log: seq<Entry>): nat {
    if log == [] then 0
    else CountProcessed(log[..|log| - 1]) + (if Processed(log[|log| - 1].bar) then 1 else 0)
  }

  /** From the arming bar on the strategy has been waiting, in one direction, on bars the gate allowed. */
  ghost predicate WaitingSince(log: seq<Entry>, armed: nat, side: Option<Side>) {
    && armed < |log| && side.Some?
    && log[armed].before.Idle? && log[armed].after.WaitPullback? && log[armed].side == side
    && Processed(log[armed].bar) && log[armed].bar.gateAllows
    && forall i :: armed < i < |log| ==>
         && (log[i].after.WaitPullback? || log[i].after.WaitRejection?) && log[i].side == side
         && (Processed(log[i].bar) ==> log[i].bar.gateAllows)
  }

  ghost predicate ArmingInvariant(cfg: Config, r: Run) {
    && (r.strategy.phase.WaitPullback? ==>
          WaitingSince(r.log, r.armed, r.strategy.side) && CountProcessed(r.log[r.armed + 1..]) == r.strategy.wait)
    && (r.strategy.phase.WaitRejection? ==>
          WaitingSince(r.log, r.armed, r.strategy.side)
          && CountProcessed(r.log[r.armed + 1..]) <= cfg.maxWait + r.strategy.wait)
  }

  lemma CountAppend(log: seq<Entry>, e: Entry, from: nat)
    requires from <= |log|
    ensures CountProcessed((log + [e])[from..]) == CountProcessed(log[from..]) + (if Processed(e.bar) then 1 else 0)
  {
    assert (log + [e])[from..] == log[from..] + [e];
    assert (log[from..] + [e])[..|log[from..]|] == log[from..];
  }

  /** How the waiting phases are entered and how their counters run. */
  ghost predicate Waits(cfg: Config, s: Strategy, bar: Bar, s': Strategy) {
    && (s'.phase.WaitPullback? || s'.phase.WaitRejection? ==>
          && s'.side.Some? && (Processed(bar) ==> bar.gateAllows)
          && (!s.phase.Idle? ==> s'.side == s.side))
    && (s'.phase.WaitPullback? ==>
          if s.phase.Idle? then Processed(bar) && s'.wait == 0
          else s.phase.WaitPullback? && s'.wait == s.wait + (if Processed(bar) then 1 else 0))
    && (s'.phase.WaitRejection? ==>
          if s.phase.WaitPullback? then Processed(bar) && s.wait < cfg.maxWait && s'.wait == 0
          else s.phase.WaitRejection? && s'.wait == s.wait + (if Processed(bar) then 1 else 0))
  }

  lemma OnBarWaits(cfg: Config, s: Strategy, bar: Bar)
    requires ValidConfig(cfg) && PhaseInvariant(cfg, s)
    ensures Waits(cfg, s, bar, OnBar(cfg, s, bar).0)
  {
    if s.side.Some? {
      match s.side.value
      case Long =>
      case Short =>
    }
  }

  lemma RecordKeepsArming(cfg: Config, r: Run, bar: Bar, s: Strategy, intent: Option<Intent>)
    requires PhaseInvariant(cfg, r.strategy) && ArmingInvariant(cfg, r) && Waits(cfg, r.strategy, bar, s)
    ensures ArmingInvariant(cfg, Record(r, bar, s, intent))
  {
    var r' := Record(r, bar, s, intent);
    var e := r'.log[|r.log|];
    if r.strategy.phase.WaitPullback? || r.strategy.phase.WaitRejection? {
      CountAppend(r.log, e, r.armed + 1);
      if s.phase.WaitPullback? || s.phase.WaitRejection? {
        WaitingAppend(r.log, r.armed, s.side, e);
      }
    } else if s.phase.WaitPullback? {
      assert r'.log[r'.armed + 1..] == [];
    }
  }

  lemma WaitingAppend(log: seq<Entry>, armed: nat, side: Option<Side>, e: Entry)
    requires WaitingSince(log, armed, side) && (e.after.WaitPullback? || e.after.WaitRejection?) && e.side == side
    requires Processed(e.bar) ==> e.bar.gateAllows
    ensures WaitingSince(log + [e], armed, side)
  {
  }

  lemma {:induction false} RunKeepsArming(cfg: Config, bars: seq<Bar>)
    requires ValidConfig(cfg)
    ensures ArmingInvariant(cfg, RunAll(cfg, bars))
  {
    if bars != [] {
      var r, bar := RunAll(cfg, bars[..|bars| - 1]), bars[|bars| - 1];
      RunKeepsArming(cfg, bars[..|bars| - 1]);
      RunKeepsPosition(cfg, bars[..|bars| - 1]);
      OnBarWaits(cfg, r.strategy, bar);
      var (s, intent) := OnBar(cfg, r.strategy, bar);
      RecordKeepsArming(cfg, r, bar, s, intent);
    }
  }

  /** Every entry comes on a gate-allowed bar, at most `2 * maxWait` processed bars after the bar that
      armed the strategy, in the direction it was armed in and without leaving the waiting phases. */
  lemma EntryFollowsArming(cfg: Config, bars: seq<Bar>, bar: Bar) returns (armed: nat)
    requires ValidConfig(cfg)
    requires var (_, intent) := OnBar(cfg, RunAll(cfg, bars).strategy, bar); intent.Some? && intent.value.Target?
    ensures var r := RunAll(cfg, bars);
            && Processed(bar) && bar.gateAllows
            && WaitingSince(r.log, armed, r.strategy.side)
            && OnBar(cfg, r.strategy, bar).1 == Some(Target(Signed(cfg, r.strategy.side)))
            && CountProcessed(r.log[armed + 1..]) + 1 <= 2 * cfg.maxWait
  {
    var r := RunAll(cfg, bars);
    RunKeepsArming(cfg, bars);
    RunKeepsPosition(cfg, bars);
    EntryNeeds(cfg, r.strategy, bar);
    armed := r.armed;
  }

  lemma EntryNeeds(cfg: Config, s: Strategy, bar: Bar)
    requires ValidConfig(cfg) && PhaseInvariant(cfg, s)
    requires var (_, intent) := OnBar(cfg, s, bar); intent.Some? && intent.value.Target?
    ensures Processed(bar) && bar.gateAllows && s.phase.WaitRejection? && s.wait < cfg.maxWait
    ensures OnBar(cfg, s, bar).1 == Some(Target(Signed(cfg, s.side)))
  {
  }

  // ---------------------------------------------------------------- the strategy object

  /** The strategy object; `intents` records what it asked of its context. */
  class PullbackStrategy {
    const cfg: Config
    var phase: Phase
    var side: Option<Side>
    var pullbackLow: Option<real>
    var pullbackHigh: Option<real>
    var wait: nat
    var entry: Option<real>
    var stop: Option<real>
    var target: Option<real>
    var session: Option<string>
    var history: seq<real>
    var intents: seq<Intent>

    ghost function View(): Strategy
      reads this
    {
      Strategy(phase, side, pullbackLow, pullbackHigh, wait, entry, stop, target, session, history)
    }

    ghost predicate Valid()
      reads this
    {
      ValidConfig(cfg) && PhaseInvariant(cfg, View())
    }

    constructor (cfg: Config)
      requires ValidConfig(cfg)
      ensures Valid() && this.cfg == cfg && View() == START && intents == []
    {
      this.cfg := cfg;
      phase, side, wait, entry, stop, target := Idle, None, 0, None, None, None;
      pullbackLow, pullbackHigh, session, history, intents := None, None, None, [], [];
    }

    method ResetState()
      modifies this
      ensures View() == Reset(old(View())) && intents == old(intents)
    {
      phase, side, wait := Idle, None, 0;
      pullbackLow, pullbackHigh := None, None;
      entry, stop, target := None, None, None;
    }

    method Exit()
      modifies this
      ensures View() == Reset(old(View())) && intents == old(intents) + [Close]
    {
      intents := intents + [Close];
      ResetState();
    }

    method UpdateSessionState(bar: Bar)
      modifies this
      ensures View() == UpdateSession(cfg, old(View()), bar) && intents == old(intents)
    {
      if bar.session != session {
        session, history := bar.session, [];
      }
      if bar.vwap.Some? {
        var longer := history + [bar.vwap.value];
        var kept := longer;
        while |kept| > cfg.slopeLookback
          invariant LastN(kept, cfg.slopeLookback) == LastN(longer, cfg.slopeLookback)
          decreases |kept|
        {
          kept := kept[1..];
        }
        history := kept;
      }
    }

    method TakeStepPullback(bar: Bar, vwap: real, atr: real)
      modifies this
      ensures View() == StepPullback(cfg, old(View()), bar, vwap, atr) && intents == old(intents)
    {
      wait := wait + 1;
      if wait > cfg.maxWait {
        ResetState();
        return;
      }
      if !TimeAllowed(bar) {
        ResetState();
        return;
      }
      if side == Some(Long) {
        if bar.close < vwap - atr * cfg.breakAtr {
          ResetState();
          return;
        }
        if vwap - atr * cfg.touchBelow <= bar.low <= vwap + atr * cfg.touchAbove {
          pullbackLow := Some(bar.low);
          phase, side, wait := WaitRejection, Some(Long), 0;
        }
      } else {
        if bar.close > vwap + atr * cfg.breakAtr {
          ResetState();
          return;
        }
        if vwap - atr * cfg.touchAbove <= bar.high <= vwap + atr * cfg.touchBelow {
          pullbackHigh := Some(bar.high);
          phase, side, wait := WaitRejection, Some(Short), 0;
        }
      }
    }

    method OpenPosition(bar: Bar, atr: real)
      modifies this
      ensures var (s, intent) := EnterPosition(cfg, old(View()), bar, atr);
              View() == s && intent.Some? && intents == old(intents) + [intent.value]
    {
      entry := Some(bar.close);
      var stopDistance := StopDistance(cfg, atr);
      var targetDistance := TargetDistance(cfg, atr);
      if side == Some(Long) {
        stop, target := Some(bar.close - stopDistance), Some(bar.close + targetDistance);
        intents := intents + [Target(cfg.quantity)];
      } else {
        stop, target := Some(bar.close + stopDistance), Some(bar.close - targetDistance);
        intents := intents + [Target(-cfg.quantity)];
      }
      phase, wait := Entered, 0;
    }

    method TakeStepRejection(bar: Bar, vwap: real, atr: real)
      modifies this
      ensures var (s, intent) := StepRejection(cfg, old(View()), bar, vwap, atr);
              View() == s && intents == old(intents) + (if intent.Some? then [intent.value] else [])
    {
      wait := wait + 1;
      if wait > cfg.maxWait {
        ResetState();
        return;
      }
      if side == Some(Long) {
        pullbackLow := Some(Min(Or(pullbackLow, bar.low), bar.low));
        if bar.close < vwap - atr * cfg.breakAtr {
          ResetState();
          return;
        }
        if bar.close > vwap && bar.close > bar.open && bar.volumeConfirms && bar.confirmed {
          OpenPosition(bar, atr);
        }
      } else {
        pullbackHigh := Some(Max(Or(pullbackHigh, bar.high), bar.high));
        if bar.close > vwap + atr * cfg.breakAtr {
          ResetState();
          return;
        }
        if bar.close < vwap && bar.close < bar.open && bar.volumeConfirms && bar.confirmed {
          OpenPosition(bar, atr);
        }
      }
    }

    method TakeStepEntered(bar: Bar, vwap: real)
      modifies this
      ensures if ExitTouched(cfg, old(View()), bar, vwap)
              then View() == Reset(old(View())) && intents == old(intents) + [Close]
              else View() == old(View()) && intents == old(intents)
    {
      if side == Some(Long) {
        if cfg.exitOnVwapCross && bar.close < vwap {
          Exit();
        } else if stop.Some? && bar.low <= stop.value {
          Exit();
        } else if target.Some? && bar.high >= target.value {
          Exit();
        }
      } else {
        if cfg.exitOnVwapCross && bar.close > vwap {
          Exit();
        } else if stop.Some? && bar.high >= stop.value {
          Exit();
        } else if target.Some? && bar.low <= target.value {
          Exit();
        }
      }
    }

    method TakeStepIdle(bar: Bar, vwap: real)
      requires cfg.slopeLookback > 0
      modifies this
      ensures View() == StepIdle(cfg, old(View()), bar, vwap) && intents == old(intents)
    {
      if !TimeAllowed(bar) || |history| < cfg.slopeLookback {
        return;
      }
      var slopeUp := history[|history| - 1] > history[0];
      if slopeUp && bar.close > vwap {
        phase, side, wait := WaitPullback, Some(Long), 0;
      } else if !slopeUp && bar.close < vwap {
        phase, side, wait := WaitPullback, Some(Short), 0;
      }
    }

    method Observe(bar: Bar)
      requires Valid()
      modifies this
      ensures var (s, intent) := OnBar(cfg, old(View()), bar);
              View() == s && intents == old(intents) + (if intent.Some? then [intent.value] else [])
      ensures Valid()
    {
      OnBarKeeps(cfg, View(), bar);
      if !bar.own {
        return;
      }
      UpdateSessionState(bar);
      if !bar.ready || bar.vwap.None? || bar.atr.None? || bar.atr.value <= 0.0 {
        return;
      }
      if phase.Entered? && NearSessionClose(bar) {
        Exit();
        return;
      }
      if !phase.Entered? && !bar.gateAllows {
        ResetState();
        return;
      }
      match phase
      case Idle => TakeStepIdle(bar, bar.vwap.value);
      case WaitPullback => TakeStepPullback(bar, bar.vwap.value, bar.atr.value);
      case WaitRejection => TakeStepRejection(bar, bar.vwap.value, bar.atr.value);
      case Entered => TakeStepEntered(bar, bar.vwap.value);
    }
  }
}
