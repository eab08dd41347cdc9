/** What one bar does to the research strategy, strategies/research/vwap_factor_research.py, in terms of the bar's own
    prices and the configuration. */
module ResearchSteps {
  import opened Optional
  import opened Reals
  import opened Intents
  import opened FactorResearch

  // ---------------------------------------------------------------- entries

  /** The multiple of the stop distance at which the whole position, or its runner, is to be closed. */
  ghost function Multiple(c: Config, bar: Bar): real {
    match c.exitStyle
    case PartialRunner => c.runnerR
    case FullTarget => if bar.badRegime && 0.0 < c.badTargetR then c.badTargetR else c.targetR
  }

  /** `n` is the greatest whole number of contracts whose risk is within the budget. */
  ghost predicate Affords(c: Config, atr: real, n: int) {
    var risk := atr * c.stopAtr * c.pointValue;
    n as real * risk <= c.budget && c.budget < (n as real + 1.0) * risk
  }

  /** The size the sizing rule gives an entry on this bar. */
  ghost predicate IsEntrySize(c: Config, bar: Bar, q: real) {
    match c.sizeRule
    case FixedSize => q == c.quantity
    case SigmaMomentumReduce => q == if bar.sizeDown then c.smallQuantity else c.quantity
    case RiskBudget =>
      exists n: int :: Affords(c, bar.atr, n)
        && q == if n as real < c.minQuantity then 0.0
                else if 0.0 < c.maxQuantity < n as real then c.maxQuantity else n as real
  }

  lemma EntrySizeIs(c: Config, bar: Bar)
    requires ValidConfig(c) && bar.atr > 0.0
    ensures IsEntrySize(c, bar, EntryQuantity(c, bar.atr, bar.sizeDown))
  {
    if c.sizeRule.RiskBudget? {
      RiskPositive(c, bar.atr);
      var n := Affordable(c.budget, RiskPerContract(c, bar.atr));
      QuotientBounds(c.budget, RiskPerContract(c, bar.atr));
      assert Affords(c, bar.atr, n);
    }
  }

  /** The whole number of contracts is unique, so the size is. */
  lemma AffordsOne(c: Config, atr: real, n: int, m: int)
    requires ValidConfig(c) && c.sizeRule.RiskBudget? && atr > 0.0 && Affords(c, atr, n) && Affords(c, atr, m)
    ensures n == m
  {
    RiskPositive(c, atr);
    var risk := atr * c.stopAtr * c.pointValue;
    assert risk == RiskPerContract(c, atr);
    OneWhole(n as real, m as real, risk, c.budget);
    OneWhole(m as real, n as real, risk, c.budget);
  }

  lemma OneWhole(n: real, m: real, risk: real, budget: real)
    requires risk > 0.0 && budget < (n + 1.0) * risk && m * risk <= budget
    ensures m < n + 1.0
  {
    if m >= n + 1.0 {
      ScaleBy(n + 1.0, m, risk);
    }
  }

  /** The position and the intent of an entry of size `q` on the bar. */
  ghost predicate IsEntry(c: Config, bar: Bar, q: real, p: Position, intent: Option<Intent>) {
    var d := bar.atr * c.stopAtr;
    && p.entry == bar.close && p.size == q && p.runner == q && !p.partialTaken && p.bars == 0 && !p.acted
    && p.adverse == 0.0 && p.favorable == 0.0 && (p.partialTarget.Some? <==> c.exitStyle == PartialRunner)
    && (bar.signal == Some(Long) ==>
          && intent == Some(Target(q)) && p.side == Long
          && p.stop == bar.close - d && p.target == bar.close + d * Multiple(c, bar)
          && (p.partialTarget.Some? ==> p.partialTarget.value == bar.close + d * c.partialR))
    && (bar.signal == Some(Short) ==>
          && intent == Some(Target(-q)) && p.side == Short
          && p.stop == bar.close + d && p.target == bar.close - d * Multiple(c, bar)
          && (p.partialTarget.Some? ==> p.partialTarget.value == bar.close - d * c.partialR))
  }

  /** A flat strategy enters exactly on a signal whose size is positive, on the side of the signal. */
  lemma EntersIff(c: Config, bar: Bar, q: real)
    requires q == EntryQuantity(c, bar.atr, bar.sizeDown)
    ensures var (p, intent) := OnBar(c, None, bar);
            && (p.Some? <==> bar.signal.Some? && q > 0.0)
            && (if p.Some? then IsEntry(c, bar, q, p.value, intent) else intent == None)
  {
    if bar.signal.Some? {
      match bar.signal.value
      case Long =>
      case Short =>
    }
  }

  /** In every run: an entry happens exactly on a signal bar while flat whose size is positive, and what is asked for
      then is positive exactly for a long signal. */
  lemma RunEntersIff(c: Config, bars: seq<Bar>, bar: Bar)
    requires ValidConfig(c) && Live(bars) && WellFormed(bar) && RunAll(c, bars).None?
    ensures exists q :: IsEntrySize(c, bar, q)
              && (RunAll(c, bars + [bar]).Some? <==> bar.signal.Some? && q > 0.0)
              && Asked(c, bars + [bar]) == Asked(c, bars)
                 + (if bar.signal.None? || q <= 0.0 then [] else [Target(if bar.signal == Some(Long) then q else -q)])
  {
    var q := EntryQuantity(c, bar.atr, bar.sizeDown);
    EntrySizeIs(c, bar);
    EntersIff(c, bar, q);
    assert (bars + [bar])[..|bars|] == bars;
    if bar.signal.Some? {
      match bar.signal.value
      case Long =>
      case Short =>
    }
  }

  // ---------------------------------------------------------------- open positions

  /** The excursions of the position, in units of the stop distance, with this bar. */
  lemma ExcursionIs(p: Position, bar: Bar)
    ensures var e := Excursion(p, bar);
            if p.entry == p.stop then e == p
            else
              var d := if p.entry < p.stop then p.stop - p.entry else p.entry - p.stop;
              var up, down := (bar.high - p.entry) / d, (p.entry - bar.low) / d;
              && e == p.(bars := e.bars, adverse := e.adverse, favorable := e.favorable) && e.bars == p.bars + 1
              && (p.side == Long ==> e.adverse == Max(p.adverse, down) && e.favorable == Max(p.favorable, up))
              && (p.side == Short ==> e.adverse == Max(p.adverse, up) && e.favorable == Max(p.favorable, down))
  {
    match p.side
    case Long =>
    case Short =>
  }

  ghost predicate Late(c: Config, e: Position) {
    && c.progressBars > 0 && 1 <= e.bars <= c.progressBars
    && e.adverse >= c.adverseR && !(e.favorable >= c.favorableR)
  }

  ghost predicate PartialDue(c: Config, p: Position, bar: Bar) {
    && c.exitStyle == PartialRunner && !p.partialTaken && p.partialTarget.Some?
    && (p.side == Long ==> bar.high >= p.partialTarget.value)
    && (p.side == Short ==> bar.low <= p.partialTarget.value)
  }

  /** The bar ends the position: session close, VWAP cross, lack of progress, stop, or a target that no partial
      precedes. */
  ghost predicate Ends(c: Config, p: Position, bar: Bar) {
    || bar.nearClose
    || (c.exitOnVwapCross && (p.side == Long ==> bar.close < bar.vwap) && (p.side == Short ==> bar.close > bar.vwap))
    || (c.action == ExitAction && Late(c, Excursion(p, bar)))
    || ((p.side == Long ==> bar.low <= p.stop) && (p.side == Short ==> bar.high >= p.stop))
    || (!PartialDue(c, p, bar)
        && (p.side == Long ==> bar.high >= p.target) && (p.side == Short ==> bar.low <= p.target))
  }

  /** A position is closed exactly on such a bar. */
  lemma ClosesIff(c: Config, p: Position, bar: Bar)
    ensures var (p', intent) := OnBar(c, Some(p), bar);
            (p'.None? <==> Ends(c, p, bar)) && (p'.None? <==> intent == Some(Close))
  {
    match p.side
    case Long =>
    case Short =>
  }

  /** What is taken off is the whole number of contracts in the fraction. */
  lemma PartialIs(c: Config, q: real)
    ensures var off := PartialQuantity(c, q);
            off <= q * c.fraction < off + 1.0 && off == off.Floor as real
  {
  }

  /** Otherwise the partial, if due and at least one contract, then the no-progress action, once. */
  lemma StaysAs(c: Config, p: Position, bar: Bar)
    requires !Ends(c, p, bar)
    ensures var (p', intent) := OnBar(c, Some(p), bar);
            var e, off := Excursion(p, bar), PartialQuantity(c, p.size);
            p'.Some? && var r := p'.value;
            if PartialDue(c, p, bar) then
              if off > 0.0 && off < p.size then
                && r == e.(runner := p.size - off, partialTaken := true, stop := r.stop, held := r.held)
                && r.stop == (if c.breakeven then p.entry else p.stop)
                && r.held == (if p.side == Long then p.size - off else off - p.size) && intent == Some(Target(r.held))
              else r == e && intent == None
            else if !Late(c, e) || p.acted then r == e && intent == None
            else
              var d := if p.entry < p.stop then p.stop - p.entry else p.entry - p.stop;
              && (c.action == ReduceTarget ==>
                    && intent == None && r == e.(acted := true, target := r.target)
                    && (p.side == Long ==> r.target == p.entry + d * c.reducedTargetR)
                    && (p.side == Short ==> r.target == p.entry - d * c.reducedTargetR))
              && (c.action == ReduceQuantity ==>
                    && r == e.(acted := true, held := r.held) && intent == Some(Target(r.held))
                    && r.held == if p.side == Long then c.reducedQuantity else -c.reducedQuantity)
  {
    match p.side
    case Long =>
    case Short =>
  }
}
