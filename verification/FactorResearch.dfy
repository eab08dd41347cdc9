/** Sizing and scaling out of strategies/research/vwap_factor_research.py: from the entry signal
    to the close of the position. The waiting phases that lead to a signal are an input. */
module FactorResearch {
  import opened Optional
  import opened Reals
  import opened Intents

  datatype SizeRule = FixedSize | SigmaMomentumReduce | RiskBudget
  datatype ExitStyle = FullTarget | PartialRunner
  datatype NoProgress = ExitAction | ReduceQuantity | ReduceTarget

  datatype Config = Config(quantity: real, stopAtr: real, targetR: real, badTargetR: real, exitOnVwapCross: bool,
                           sizeRule: SizeRule, smallQuantity: real,
                           budget: real, pointValue: real, minQuantity: real, maxQuantity: real,
                           exitStyle: ExitStyle, partialR: real, fraction: real, runnerR: real, breakeven: bool,
                           progressBars: nat, adverseR: real, favorableR: real, action: NoProgress,
                           reducedQuantity: real, reducedTargetR: real)

  /** The ranges that the configuration's validation admits. */
  ghost predicate ValidConfig(c: Config) {
    && c.quantity > 0.0 && c.stopAtr > 0.0 && c.targetR > 0.0 && c.badTargetR >= 0.0
    && c.adverseR >= 0.0 && c.favorableR >= 0.0 && (c.progressBars > 0 ==> c.adverseR > 0.0)
    && (c.action.ReduceQuantity? ==> 0.0 < c.reducedQuantity < c.quantity)
    && (c.action.ReduceTarget? ==> 0.0 < c.reducedTargetR < c.targetR)
    && (c.sizeRule.SigmaMomentumReduce? ==> 0.0 < c.smallQuantity < c.quantity)
    && (c.sizeRule.RiskBudget? ==> c.budget > 0.0 && c.pointValue > 0.0 && c.minQuantity >= 0.0 && c.maxQuantity >= 0.0)
    && (c.exitStyle.PartialRunner? ==> 0.0 < c.partialR < c.runnerR && 0.0 < c.fraction < 1.0)
  }

  // ---------------------------------------------------------------- entry size

  function StopDistance(c: Config, atr: real): real { atr * c.stopAtr }

  function RiskPerContract(c: Config, atr: real): real { StopDistance(c, atr) * c.pointValue }

  function Affordable(budget: real, risk: real): int
    requires risk > 0.0
  {
    (budget / risk).Floor
  }

  function RiskBudgetQuantity(c: Config, atr: real): real {
    var risk := RiskPerContract(c, atr);
    if risk <= 0.0 then 0.0
    else
      var q := Affordable(c.budget, risk) as real;
      if q < c.minQuantity then 0.0
      else if c.maxQuantity > 0.0 then Min(q, c.maxQuantity)
      else q
  }

  lemma QuotientBounds(budget: real, risk: real)
    requires risk > 0.0
    ensures var q := Affordable(budget, risk) as real;
            q * risk <= budget < (q + 1.0) * risk
  {
    var ratio := budget / risk;
    assert ratio * risk == budget;
    Between(ratio.Floor as real, ratio, risk, budget);
  }

  lemma Between(q: real, ratio: real, risk: real, budget: real)
    requires risk > 0.0 && ratio * risk == budget && q <= ratio < q + 1.0
    ensures q * risk <= budget < (q + 1.0) * risk
  {
    var next := q + 1.0;
    ScaleBy(q, ratio, risk);
    ScaleStrictly(ratio, next, risk);
    assert budget < next * risk;
  }

  lemma ScaleStrictly(a: real, b: real, k: real)
    requires a < b && k > 0.0
    ensures a * k < b * k
  {
    assert (b - a) * k > 0.0;
  }

  lemma ScaleBy(a: real, b: real, k: real)
    requires a <= b && k >= 0.0
    ensures a * k <= b * k
  {
    assert (b - a) * k >= 0.0;
  }

  /** The risk-budget size never risks more than the budget, and unless it is rejected for being below
      the minimum or capped at the maximum, one more contract would. */
  lemma RiskWithinBudget(c: Config, atr: real)
    requires ValidConfig(c) && c.sizeRule.RiskBudget? && atr > 0.0
    ensures var q, risk := RiskBudgetQuantity(c, atr), RiskPerContract(c, atr);
            && risk > 0.0 && 0.0 <= q && q * risk <= c.budget
            && var n := Affordable(c.budget, risk) as real;
               && (q == 0.0 <==> n == 0.0 || n < c.minQuantity)
               && (q > 0.0 && !(0.0 < c.maxQuantity < n) ==> q == n && (q + 1.0) * risk > c.budget)
               && (q > 0.0 && 0.0 < c.maxQuantity < n ==> q == c.maxQuantity)
  {
    RiskPositive(c, atr);
    var q, risk := RiskBudgetQuantity(c, atr), RiskPerContract(c, atr);
    QuotientBounds(c.budget, risk);
    var n := Affordable(c.budget, risk) as real;
    assert n >= 0.0 by {
      if n <= -1.0 {
        ScaleBy(n + 1.0, 0.0, risk);
      }
    }
    ScaleBy(q, n, risk);
  }

  lemma RiskPositive(c: Config, atr: real)
    requires ValidConfig(c) && c.sizeRule.RiskBudget? && atr > 0.0
    ensures RiskPerContract(c, atr) > 0.0
  {
    var d := StopDistance(c, atr);
    assert d > 0.0;
    assert d * c.pointValue > 0.0;
  }

  /** The size of an entry; `sizeDown` is the sigma and momentum condition of that rule. */
  function EntryQuantity(c: Config, atr: real, sizeDown: bool): real {
    match c.sizeRule
    case RiskBudget => RiskBudgetQuantity(c, atr)
    case SigmaMomentumReduce => if sizeDown then c.smallQuantity else c.quantity
    case FixedSize => c.quantity
  }

  /** Contracts taken off at the partial target. */
  function PartialQuantity(c: Config, q: real): real { (q * c.fraction).Floor as real }

  function RunnerQuantity(c: Config, q: real): real { q - PartialQuantity(c, q) }

  /** The partial and the runner conserve the position; below one whole contract nothing is taken off. */
  lemma PartialConserves(c: Config, q: real)
    requires ValidConfig(c) && c.exitStyle.PartialRunner? && q > 0.0
    ensures PartialQuantity(c, q) + RunnerQuantity(c, q) == q
    ensures PartialQuantity(c, q) > 0.0 <==> q * c.fraction >= 1.0
    ensures PartialQuantity(c, q) > 0.0 ==> PartialQuantity(c, q) >= 1.0 && 0.0 < RunnerQuantity(c, q) < q
    ensures PartialQuantity(c, q) <= 0.0 ==> PartialQuantity(c, q) == 0.0
  {
    var part := q * c.fraction;
    ScaleStrictly(0.0, c.fraction, q);
    ScaleStrictly(c.fraction, 1.0, q);
  }

  // ---------------------------------------------------------------- one bar

  /** A processed bar: the indicators are ready and the ATR is positive. `signal` is the direction of a
      confirmed rejection, if the waiting phases produced one on this bar. */
  datatype Bar = Bar(open: real, high: real, low: real, close: real, vwap: real, atr: real, nearClose: bool,
                     signal: Option<Side>, sizeDown: bool, badRegime: bool)

  /** What the bar type and the rejection test guarantee of a processed bar. */
  ghost predicate WellFormed(bar: Bar) {
    && bar.low <= bar.open <= bar.high && bar.low <= bar.close <= bar.high && bar.atr > 0.0
    && (bar.signal == Some(Long) ==> bar.close > bar.vwap && bar.close > bar.open)
    && (bar.signal == Some(Short) ==> bar.close < bar.vwap && bar.close < bar.open)
  }

  /** The open position. `distance` is the stop distance at entry and `held` the quantity last asked of the
      context; the strategy keeps neither, they are recorded for what follows. */
  datatype Position = Position(side: Side, entry: real, stop: real, target: real, partialTarget: Option<real>,
                               size: real, runner: real, partialTaken: bool, bars: nat, adverse: real, favorable: real,
                               acted: bool, distance: real, held: real)

  function Signed(side: Side, q: real): real { if side.Long? then q else -q }

  /** The price `x` away from `price` on the favourable side. */
  function Beyond(side: Side, price: real, x: real): real { if side.Long? then price + x else price - x }

  predicate TouchesBehind(side: Side, bar: Bar, level: real) {
    if side.Long? then bar.low <= level else bar.high >= level
  }

  predicate TouchesAhead(side: Side, bar: Bar, level: real) {
    if side.Long? then bar.high >= level else bar.low <= level
  }

  predicate CrossesVwap(side: Side, bar: Bar) { if side.Long? then bar.close < bar.vwap else bar.close > bar.vwap }

  /** A distance in units of risk. */
  function Scaled(d: real, r: real): real { d * r }

  function Ratio(x: real, d: real): real
    requires d != 0.0
  {
    x / d
  }

  function Loss(p: Position, bar: Bar): real { if p.side.Long? then p.entry - bar.low else bar.high - p.entry }

  function Gain(p: Position, bar: Bar): real { if p.side.Long? then bar.high - p.entry else p.entry - bar.low }

  /** `_update_entry_excursion_state`. */
  function Excursion(p: Position, bar: Bar): Position {
    if p.entry == p.stop then p
    else
      var d := Abs(p.entry - p.stop);
      p.(bars := p.bars + 1, adverse := Max(p.adverse, Ratio(Loss(p, bar), d)),
         favorable := Max(p.favorable, Ratio(Gain(p, bar), d)))
  }

  predicate Stalled(c: Config, p: Position) {
    c.progressBars > 0 && 0 < p.bars <= c.progressBars && p.adverse >= c.adverseR && p.favorable < c.favorableR
  }

  predicate PartialTouched(c: Config, p: Position, bar: Bar) {
    && c.exitStyle.PartialRunner? && !p.partialTaken && p.partialTarget.Some?
    && TouchesAhead(p.side, bar, p.partialTarget.value)
  }

  function ApplyPartial(c: Config, p: Position): (Position, Option<Intent>) {
    var runner := RunnerQuantity(c, p.size);
    if PartialQuantity(c, p.size) <= 0.0 || runner <= 0.0 then (p, None)
    else
      (p.(runner := runner, partialTaken := true, stop := if c.breakeven then p.entry else p.stop,
          held := Signed(p.side, runner)), Some(Target(Signed(p.side, runner))))
  }

  function ApplyAction(c: Config, p: Position): (Position, Option<Intent>) {
    if p.acted then (p, None)
    else
      match c.action
      case ExitAction => (p.(acted := true), None)
      case ReduceTarget =>
        (p.(acted := true, target := Beyond(p.side, p.entry, Scaled(Abs(p.entry - p.stop), c.reducedTargetR))), None)
      case ReduceQuantity =>
        (p.(acted := true, held := Signed(p.side, c.reducedQuantity)), Some(Target(Signed(p.side, c.reducedQuantity))))
  }

  function StepEntered(c: Config, p: Position, bar: Bar): (Option<Position>, Option<Intent>) {
    var p := Excursion(p, bar);
    var stalled := Stalled(c, p);
    if (c.exitOnVwapCross && CrossesVwap(p.side, bar)) || (stalled && c.action.ExitAction?)
       || TouchesBehind(p.side, bar, p.stop)
    then (None, Some(Close))
    else if PartialTouched(c, p, bar) then
      var (p', intent) := ApplyPartial(c, p); (Some(p'), intent)
    else if TouchesAhead(p.side, bar, p.target) then (None, Some(Close))
    else if stalled then
      var (p', intent) := ApplyAction(c, p); (Some(p'), intent)
    else (Some(p), None)
  }

  /** `_entry_final_target_r_multiple`. */
  function FinalTarget(c: Config, badRegime: bool): real {
    if c.exitStyle.PartialRunner? then c.runnerR
    else if c.badTargetR > 0.0 && badRegime then c.badTargetR
    else c.targetR
  }

  /** The position opened with quantity `q`. */
  function OpenAt(c: Config, side: Side, bar: Bar, q: real): Position {
    var d := StopDistance(c, bar.atr);
    Position(side, bar.close, Beyond(side, bar.close, -d),
             Beyond(side, bar.close, Scaled(d, FinalTarget(c, bar.badRegime))),
             if c.exitStyle.PartialRunner? then Some(Beyond(side, bar.close, Scaled(d, c.partialR))) else None,
             q, q, false, 0, 0.0, 0.0, false, d, Signed(side, q))
  }

  function Enter(c: Config, side: Side, bar: Bar): (Option<Position>, Option<Intent>) {
    var q := EntryQuantity(c, bar.atr, bar.sizeDown);
    if q <= 0.0 then (None, None) else (Some(OpenAt(c, side, bar, q)), Some(Target(Signed(side, q))))
  }

  function OnBar(c: Config, p: Option<Position>, bar: Bar): (Option<Position>, Option<Intent>) {
    if p.None? then
      if bar.signal.Some? then Enter(c, bar.signal.value, bar) else (None, None)
    else if bar.nearClose then (None, Some(Close))
    else StepEntered(c, p.value, bar)
  }

  ghost predicate Live(bars: seq<Bar>) { forall i :: 0 <= i < |bars| ==> WellFormed(bars[i]) }

  function RunAll(c: Config, bars: seq<Bar>): Option<Position> {
    if bars == [] then None else OnBar(c, RunAll(c, bars[..|bars| - 1]), bars[|bars| - 1]).0
  }

  /** The intents of a run, in order. */
  function Asked(c: Config, bars: seq<Bar>): seq<Intent> {
    if bars == [] then []
    else
      var init, bar := bars[..|bars| - 1], bars[|bars| - 1];
      Asked(c, init) + AsSeq(OnBar(c, RunAll(c, init), bar).1)
  }

  // ---------------------------------------------------------------- positions that can grow

  /** The bar makes the strategy ask for more than it holds. */
  ghost predicate Grows(c: Config, p: Option<Position>, bar: Bar) {
    var intent := OnBar(c, p, bar).1;
    p.Some? && intent.Some? && intent.value.Target? && Abs(intent.value.quantity) > Abs(p.value.held)
  }

  /** Some bar can bring about an entry of size `q`. */
  ghost predicate CanEnterWith(c: Config, q: real) {
    q > 0.0 && exists atr: real, sizeDown: bool :: atr > 0.0 && EntryQuantity(c, atr, sizeDown) == q
  }

  /** A position can be found stalled without being stopped out first. */
  ghost predicate CanStall(c: Config) { c.progressBars > 0 && c.adverseR < 1.0 && c.favorableR > 0.0 }

  /** A position can still be found stalled after its partial. */
  ghost predicate CanStallAfterPartial(c: Config) {
    CanStall(c) && c.favorableR > c.partialR && (c.progressBars > 1 || c.breakeven)
  }

  ghost predicate CanReduce(c: Config) { CanStall(c) && c.action.ReduceQuantity? }

  ghost predicate CanReduceAfterPartial(c: Config) { CanStallAfterPartial(c) && c.action.ReduceQuantity? }

  ghost predicate TakesPartial(c: Config, q: real) { c.exitStyle.PartialRunner? && PartialQuantity(c, q) > 0.0 }

  /** No order of the two reductions makes a position of size `q` grow. */
  ghost predicate SafeSize(c: Config, q: real) {
    CanReduce(c) ==>
      && c.reducedQuantity <= q
      && (TakesPartial(c, q) ==>
            && RunnerQuantity(c, q) <= c.reducedQuantity
            && (CanReduceAfterPartial(c) ==> c.reducedQuantity <= RunnerQuantity(c, q)))
  }

  /** What holds of an open position between bars. */
  ghost predicate OpenInvariant(c: Config, p: Position) {
    && CanEnterWith(c, p.size) && p.distance > 0.0
    && p.adverse < 1.0 && p.favorable >= 0.0
    && p.stop == (if p.partialTaken && c.breakeven then p.entry else Beyond(p.side, p.entry, -p.distance))
    && (c.exitStyle.PartialRunner? ==> p.partialTarget == Some(Beyond(p.side, p.entry, Scaled(p.distance, c.partialR))))
    && (p.partialTaken ==> TakesPartial(c, p.size) && p.favorable >= c.partialR && p.bars > 0)
    && (p.acted && c.action.ReduceQuantity? ==> CanReduce(c))
    && (TargetAhead(p) || (p.partialTaken && CanCollapse(c)))
    && HeldAsExpected(c, p) && (if p.side.Long? then p.held > 0.0 else p.held < 0.0)
  }

  /** The target lies strictly beyond the entry. */
  ghost predicate TargetAhead(p: Position) { if p.side.Long? then p.target > p.entry else p.target < p.entry }

  /** The stop lies strictly behind the entry. */
  ghost predicate StopBehind(p: Position) { if p.side.Long? then p.stop < p.entry else p.stop > p.entry }

  /** A stalled position whose stop was moved to the entry gets its target moved there too. */
  ghost predicate CanCollapse(c: Config) {
    CanStallAfterPartial(c) && c.action.ReduceTarget? && c.exitStyle.PartialRunner? && c.breakeven
  }

  /** What is held: the entry size, the runner, or the reduced quantity. */
  ghost predicate HeldAsExpected(c: Config, p: Position) {
    var m := Abs(p.held);
    var reduced := p.acted && c.action.ReduceQuantity?;
    if !p.partialTaken && !reduced then m == p.size
    else (p.partialTaken && m == RunnerQuantity(c, p.size)) || (reduced && m == c.reducedQuantity)
  }

  lemma RatioBelow(x: real, d: real, r: real)
    requires d > 0.0
    ensures x < Scaled(d, r) ==> Ratio(x, d) < r
    ensures x >= Scaled(d, r) ==> Ratio(x, d) >= r
  {
    var ratio := Ratio(x, d);
    assert ratio * d == x;
    if ratio < r {
      ScaleStrictly(ratio, r, d);
    } else {
      ScaleBy(r, ratio, d);
    }
  }

  /** While the stop stands at its original place, a bar that does not touch it is less than one unit adverse. */
  lemma ExcursionKeeps(c: Config, p: Position, bar: Bar)
    requires ValidConfig(c) && OpenInvariant(c, p) && !TouchesBehind(p.side, bar, p.stop)
    ensures var e := Excursion(p, bar);
            && OpenInvariant(c, e)
            && (p.entry != p.stop ==> e.bars == p.bars + 1)
            && (!p.partialTaken && c.exitStyle.PartialRunner? && TouchesAhead(p.side, bar, p.partialTarget.value) ==>
                  e.favorable >= c.partialR)
  {
    if p.entry != p.stop {
      var d := Abs(p.entry - p.stop);
      assert d == p.distance;
      RatioBelow(Loss(p, bar), d, 1.0);
      RatioBelow(Gain(p, bar), d, c.partialR);
    }
  }

  /** A position stalls only as `CanStall` says, and after a partial only as `CanStallAfterPartial` says. */
  lemma StalledMeans(c: Config, p: Position, bar: Bar)
    requires ValidConfig(c) && OpenInvariant(c, p) && !TouchesBehind(p.side, bar, p.stop)
    requires Stalled(c, Excursion(p, bar))
    ensures CanStall(c) && (p.partialTaken ==> CanStallAfterPartial(c))
  {
    ExcursionKeeps(c, p, bar);
    var e := Excursion(p, bar);
    assert e.favorable >= 0.0 && e.adverse < 1.0;
    assert p.partialTaken ==> e.favorable >= c.partialR;
  }

  lemma SignedMagnitude(side: Side, q: real)
    requires q >= 0.0
    ensures Abs(Signed(side, q)) == q
  {
  }

  lemma PartialStep(c: Config, e: Position)
    requires ValidConfig(c) && OpenInvariant(c, e) && !e.partialTaken && c.exitStyle.PartialRunner?
    requires e.favorable >= c.partialR && e.bars > 0
    ensures var (p', intent) := ApplyPartial(c, e);
            && OpenInvariant(c, p')
            && (intent.Some? ==> TakesPartial(c, e.size) && intent.value.Target?
                                 && Abs(intent.value.quantity) == RunnerQuantity(c, e.size))
  {
    PartialConserves(c, e.size);
    SignedMagnitude(e.side, if RunnerQuantity(c, e.size) > 0.0 then RunnerQuantity(c, e.size) else 0.0);
  }

  lemma ActionStep(c: Config, e: Position)
    requires ValidConfig(c) && OpenInvariant(c, e) && CanStall(c) && (e.partialTaken ==> CanStallAfterPartial(c))
    ensures var (p', intent) := ApplyAction(c, e);
            && OpenInvariant(c, p')
            && (intent.Some? ==> c.action.ReduceQuantity? && !e.acted && intent.value.Target?
                                 && Abs(intent.value.quantity) == c.reducedQuantity)
  {
    if c.action.ReduceQuantity? {
      SignedMagnitude(e.side, c.reducedQuantity);
    } else if c.action.ReduceTarget? {
      ScaleStrictly(0.0, c.reducedTargetR, e.distance);
    }
  }

  lemma TargetDistancePositive(c: Config, d: real, badRegime: bool)
    requires ValidConfig(c) && d > 0.0
    ensures Scaled(d, FinalTarget(c, badRegime)) > 0.0
  {
    ScaleStrictly(0.0, FinalTarget(c, badRegime), d);
  }

  lemma EnterKeeps(c: Config, side: Side, bar: Bar)
    requires ValidConfig(c) && bar.atr > 0.0
    ensures var (p, _) := Enter(c, side, bar); p.Some? ==> OpenInvariant(c, p.value)
  {
    var q := EntryQuantity(c, bar.atr, bar.sizeDown);
    if q > 0.0 {
      var d := StopDistance(c, bar.atr);
      assert d > 0.0;
      SignedMagnitude(side, q);
      TargetDistancePositive(c, d, bar.badRegime);
      assert CanEnterWith(c, q);
    }
  }

  /** Every open position of every run satisfies the invariant. */
  lemma {:induction false} RunKeeps(c: Config, bars: seq<Bar>)
    requires ValidConfig(c) && Live(bars)
    ensures RunAll(c, bars).Some? ==> OpenInvariant(c, RunAll(c, bars).value)
  {
    if bars != [] {
      var p, bar := RunAll(c, bars[..|bars| - 1]), bars[|bars| - 1];
      RunKeeps(c, bars[..|bars| - 1]);
      if p.Some? {
        StepKeeps(c, p.value, bar);
      } else if bar.signal.Some? {
        EnterKeeps(c, bar.signal.value, bar);
      }
    }
  }

  lemma StepKeeps(c: Config, p: Position, bar: Bar)
    requires ValidConfig(c) && OpenInvariant(c, p)
    ensures var (p', intent) := OnBar(c, Some(p), bar);
            && (p'.Some? ==> OpenInvariant(c, p'.value))
            && (SafeSize(c, p.size) ==> !Grows(c, Some(p), bar))
  {
    if !TouchesBehind(p.side, bar, p.stop) {
      ExcursionKeeps(c, p, bar);
      var e := Excursion(p, bar);
      if PartialTouched(c, e, bar) {
        PartialStep(c, e);
      } else if Stalled(c, e) {
        StalledMeans(c, p, bar);
        ActionStep(c, e);
      }
    }
  }

  // ---------------------------------------------------------------- exactly when positions never grow

  /** No run of the strategy ever asks for more than it holds. */
  ghost predicate NeverGrows(c: Config) {
    forall bars, bar :: Live(bars) && WellFormed(bar) ==> !Grows(c, RunAll(c, bars), bar)
  }

  ghost predicate AllSizesSafe(c: Config) {
    forall q :: CanEnterWith(c, q) ==> SafeSize(c, q)
  }

  lemma SafeSizesNeverGrow(c: Config)
    requires ValidConfig(c) && AllSizesSafe(c)
    ensures NeverGrows(c)
  {
    forall bars, bar | Live(bars) && WellFormed(bar) ensures !Grows(c, RunAll(c, bars), bar) {
      RunKeeps(c, bars);
      if RunAll(c, bars).Some? {
        StepKeeps(c, RunAll(c, bars).value, bar);
      }
    }
  }

  /** The price of the entries below: all prices stay positive. */
  function Base(d: real): real { d + 1.0 }

  /** A long entry whose stop distance is `d`. */
  function EntryBar(d: real, atr: real, sizeDown: bool): Bar {
    Bar(d, Base(d), d, Base(d), d, atr, false, Some(Long), sizeDown, false)
  }

  function PriceBar(low: real, high: real): Bar { Bar(low, high, low, low, low, 1.0, false, None, false, false) }

  lemma RatioExact(d: real, r: real)
    requires d > 0.0
    ensures Ratio(Scaled(d, r), d) == r
  {
    var ratio := Ratio(Scaled(d, r), d);
    assert ratio * d == r * d;
    if ratio < r {
      ScaleStrictly(ratio, r, d);
    } else if r < ratio {
      ScaleStrictly(r, ratio, d);
    }
  }

  /** The position just after that entry. */
  ghost function Opened(c: Config, q: real, d: real): Position {
    var reach := Scaled(d, if c.exitStyle.PartialRunner? then c.runnerR else c.targetR);
    Position(Long, Base(d), 1.0, Base(d) + reach,
             if c.exitStyle.PartialRunner? then Some(Base(d) + Scaled(d, c.partialR)) else None,
             q, q, false, 0, 0.0, 0.0, false, d, q)
  }

  lemma EntryOpens(c: Config, q: real, atr: real, sizeDown: bool)
    requires ValidConfig(c) && q > 0.0 && atr > 0.0 && EntryQuantity(c, atr, sizeDown) == q
    ensures var d := StopDistance(c, atr);
            && d > 0.0 && WellFormed(EntryBar(d, atr, sizeDown))
            && RunAll(c, [EntryBar(d, atr, sizeDown)]) == Some(Opened(c, q, d))
  {
    var bars := [EntryBar(StopDistance(c, atr), atr, sizeDown)];
    assert bars[..0] == [] && RunAll(c, []) == None;
    assert StopDistance(c, atr) > 0.0;
  }

  /** Levels measured in units of the stop distance are ordered like the units. */
  lemma Levels(d: real, r: real, s: real)
    requires d > 0.0 && r < s
    ensures Scaled(d, r) < Scaled(d, s) && Scaled(d, 1.0) == d && Scaled(d, 0.0) == 0.0
  {
    ScaleStrictly(r, s, d);
  }

  function DipBar(c: Config, d: real): Bar { PriceBar(Base(d) - Scaled(d, c.adverseR), Base(d)) }

  function RiseBar(c: Config, d: real): Bar { PriceBar(Base(d), Base(d) + Scaled(d, c.partialR)) }

  function SwingBar(c: Config, d: real): Bar {
    PriceBar(Base(d) - Scaled(d, c.adverseR), Base(d) + Scaled(d, c.partialR))
  }

  function QuietBar(c: Config, d: real): Bar {
    PriceBar(Base(d) + Scaled(d, c.partialR) / 2.0, Base(d) + Scaled(d, c.partialR) / 2.0)
  }

  lemma BarsAreWellFormed(c: Config, d: real)
    requires ValidConfig(c) && d > 0.0
    ensures WellFormed(DipBar(c, d)) && WellFormed(QuietBar(c, d))
    ensures c.exitStyle.PartialRunner? ==> WellFormed(RiseBar(c, d)) && WellFormed(SwingBar(c, d))
  {
    ScaleBy(0.0, c.adverseR, d);
    if c.exitStyle.PartialRunner? {
      ScaleBy(0.0, c.partialR, d);
    }
  }

  /** A dip of `adverseR` units stalls the position and cuts it to the reduced quantity. */
  lemma DipReduces(c: Config, q: real, d: real)
    requires ValidConfig(c) && CanReduce(c) && q > 0.0 && d > 0.0
    ensures var (p, intent) := OnBar(c, Some(Opened(c, q, d)), DipBar(c, d));
            && intent == Some(Target(c.reducedQuantity))
            && p == Some(Opened(c, q, d).(bars := 1, adverse := c.adverseR, acted := true, held := c.reducedQuantity))
  {
    var p := Opened(c, q, d);
    Levels(d, c.adverseR, 1.0);
    Levels(d, 0.0, if c.exitStyle.PartialRunner? then c.runnerR else c.targetR);
    if c.exitStyle.PartialRunner? {
      Levels(d, 0.0, c.partialR);
    }
    RatioExact(d, c.adverseR);
    RatioExact(d, 0.0);
    assert Excursion(p, DipBar(c, d)) == p.(bars := 1, adverse := c.adverseR, favorable := 0.0);
  }

  /** A rise to the partial target takes the partial even after such a cut, unless the bar exits a stalled position. */
  lemma RiseTakesPartial(c: Config, p: Position, low: real)
    requires ValidConfig(c) && c.exitStyle.PartialRunner? && TakesPartial(c, p.size) && p.size > 0.0
    requires p.side.Long? && p.distance > 0.0 && p.stop == p.entry - p.distance && !p.partialTaken
    requires p.partialTarget == Some(p.entry + Scaled(p.distance, c.partialR)) && p.entry - p.distance < low
    requires var bar := PriceBar(low, p.entry + Scaled(p.distance, c.partialR));
             !(c.action.ExitAction? && Stalled(c, Excursion(p, bar)))
    ensures var bar := PriceBar(low, p.entry + Scaled(p.distance, c.partialR));
            && OnBar(c, Some(p), bar).1 == Some(Target(RunnerQuantity(c, p.size)))
            && OnBar(c, Some(p), bar).0
            == Some(Excursion(p, bar).(runner := RunnerQuantity(c, p.size), partialTaken := true,
                                       stop := if c.breakeven then p.entry else p.stop,
                                       held := RunnerQuantity(c, p.size)))
  {
    PartialConserves(c, p.size);
  }

  /** The position after a swing that is adverse by `adverseR` units and takes the partial. */
  ghost function Swung(c: Config, q: real, d: real): Position {
    Opened(c, q, d).(bars := 1, adverse := c.adverseR, favorable := c.partialR, runner := RunnerQuantity(c, q),
                     partialTaken := true, stop := if c.breakeven then Base(d) else 1.0, held := RunnerQuantity(c, q))
  }

  lemma SwingTakesPartial(c: Config, q: real, d: real)
    requires ValidConfig(c) && CanStallAfterPartial(c) && !c.action.ExitAction? && TakesPartial(c, q)
    requires q > 0.0 && d > 0.0
    ensures OnBar(c, Some(Opened(c, q, d)), SwingBar(c, d)).0 == Some(Swung(c, q, d))
  {
    var p := Opened(c, q, d);
    Levels(d, c.adverseR, 1.0);
    Levels(d, 0.0, c.partialR);
    RatioExact(d, c.adverseR);
    RatioExact(d, c.partialR);
    assert Excursion(p, SwingBar(c, d)) == p.(bars := 1, adverse := c.adverseR, favorable := c.partialR);
    RiseTakesPartial(c, p, Base(d) - Scaled(d, c.adverseR));
  }

  /** After that, a quiet bar above the entry still finds the position stalled. */
  lemma QuietBarActs(c: Config, q: real, d: real)
    requires ValidConfig(c) && CanStallAfterPartial(c) && !c.action.ExitAction? && TakesPartial(c, q) && d > 0.0
    ensures var p := Excursion(Swung(c, q, d), QuietBar(c, d));
            && (p == Swung(c, q, d) || p == Swung(c, q, d).(bars := 2))
            && OnBar(c, Some(Swung(c, q, d)), QuietBar(c, d)) == (Some(ApplyAction(c, p).0), ApplyAction(c, p).1)
  {
    var p := Swung(c, q, d);
    var h := Scaled(d, c.partialR) / 2.0;
    Levels(d, c.partialR, c.runnerR);
    Levels(d, 0.0, c.partialR);
    if !c.breakeven {
      RatioBelow(-h, d, 0.0);
      RatioBelow(h, d, c.partialR);
      assert Excursion(p, QuietBar(c, d)) == p.(bars := 2);
    }
  }

  lemma RunStep(c: Config, bars: seq<Bar>, bar: Bar)
    ensures RunAll(c, bars + [bar]) == OnBar(c, RunAll(c, bars), bar).0
  {
    assert (bars + [bar])[..|bars|] == bars;
  }

  /** For every entry size that is not safe there is a run in which the position grows. */
  lemma UnsafeSizeGrows(c: Config, q: real) returns (bars: seq<Bar>, bar: Bar)
    requires ValidConfig(c) && CanEnterWith(c, q) && !SafeSize(c, q)
    ensures Live(bars) && WellFormed(bar) && Grows(c, RunAll(c, bars), bar)
  {
    var atr: real, sizeDown: bool :| atr > 0.0 && EntryQuantity(c, atr, sizeDown) == q;
    var d := StopDistance(c, atr);
    bars := [EntryBar(d, atr, sizeDown)];
    EntryOpens(c, q, atr, sizeDown);
    BarsAreWellFormed(c, d);
    if c.exitStyle.PartialRunner? {
      PartialConserves(c, q);
    }
    if c.reducedQuantity > q {
      DipReduces(c, q, d);
      bar := DipBar(c, d);
    } else if RunnerQuantity(c, q) > c.reducedQuantity {
      DipReduces(c, q, d);
      RunStep(c, bars, DipBar(c, d));
      bars, bar := bars + [DipBar(c, d)], RiseBar(c, d);
      RiseTakesPartial(c, RunAll(c, bars).value, Base(d));
    } else {
      SwingTakesPartial(c, q, d);
      RunStep(c, bars, SwingBar(c, d));
      bars, bar := bars + [SwingBar(c, d)], QuietBar(c, d);
      QuietBarActs(c, q, d);
    }
  }

  /** The magnitude of a position never increases between entry and close, in any run, exactly when every
      entry size the sizing rule can produce is safe. */
  lemma NeverGrowsIff(c: Config)
    requires ValidConfig(c)
    ensures NeverGrows(c) <==> AllSizesSafe(c)
  {
    if AllSizesSafe(c) {
      SafeSizesNeverGrow(c);
    } else {
      var q :| CanEnterWith(c, q) && !SafeSize(c, q);
      var bars, bar := UnsafeSizeGrows(c, q);
    }
  }

  /** In particular when the no-progress action is off or exits, or when the size is fixed and the position
      leaves at one target. */
  lemma SimpleConfigsNeverGrow(c: Config)
    requires ValidConfig(c)
    requires c.progressBars == 0 || c.action.ExitAction? || (c.sizeRule.FixedSize? && c.exitStyle.FullTarget?)
    ensures NeverGrows(c)
  {
    SafeSizesNeverGrow(c);
  }

  // ---------------------------------------------------------------- stop, target and intents of every run

  /** Some entry that the sizing rule can produce takes a partial. */
  ghost predicate SomePartial(c: Config) { exists q :: CanEnterWith(c, q) && TakesPartial(c, q) }

  /** In every run the target of an open position lies strictly beyond its entry. */
  ghost predicate TargetStaysAhead(c: Config) {
    forall bars :: Live(bars) && RunAll(c, bars).Some? ==> TargetAhead(RunAll(c, bars).value)
  }

  /** In every run stop and target strictly bracket the entry. */
  ghost predicate StaysBracketed(c: Config) {
    forall bars :: Live(bars) && RunAll(c, bars).Some? ==>
      StopBehind(RunAll(c, bars).value) && TargetAhead(RunAll(c, bars).value)
  }

  /** A break-even partial followed by a reduced target: stop, target and entry coincide. */
  lemma TargetCollapses(c: Config, q: real) returns (bars: seq<Bar>)
    requires ValidConfig(c) && CanCollapse(c) && CanEnterWith(c, q) && TakesPartial(c, q)
    ensures Live(bars) && RunAll(c, bars).Some?
    ensures var p := RunAll(c, bars).value; p.target == p.entry == p.stop && p.side.Long?
  {
    var atr: real, sizeDown: bool :| atr > 0.0 && EntryQuantity(c, atr, sizeDown) == q;
    var d := StopDistance(c, atr);
    var entry := EntryBar(d, atr, sizeDown);
    EntryOpens(c, q, atr, sizeDown);
    BarsAreWellFormed(c, d);
    SwingTakesPartial(c, q, d);
    RunStep(c, [entry], SwingBar(c, d));
    QuietBarActs(c, q, d);
    RunStep(c, [entry] + [SwingBar(c, d)], QuietBar(c, d));
    bars := [entry] + [SwingBar(c, d)] + [QuietBar(c, d)];
  }

  /** Four contracts, half of them taken off at one unit of risk with the stop moved to break-even, and a stalled
      position whose action is given. */
  ghost function Example(action: NoProgress): Config {
    Config(4.0, 1.0, 2.0, 0.0, false, FixedSize, 0.0, 0.0, 0.0, 0.0, 0.0, PartialRunner, 1.0, 0.5, 2.0, true,
           5, 0.5, 1.5, action, 1.0, 1.0)
  }

  lemma ExampleIsReal(action: NoProgress)
    ensures ValidConfig(Example(action)) && CanEnterWith(Example(action), 4.0) && TakesPartial(Example(action), 4.0)
    ensures RunnerQuantity(Example(action), 4.0) == 2.0
  {
    assert EntryQuantity(Example(action), 1.0, false) == 4.0;
    assert PartialQuantity(Example(action), 4.0) == 2.0;
  }

  /** The example with a reduced target collapses. */
  lemma ExampleCollapses()
    ensures !TargetStaysAhead(Example(ReduceTarget))
  {
    ExampleIsReal(ReduceTarget);
    var bars := TargetCollapses(Example(ReduceTarget), 4.0);
  }

  /** The example with a reduced quantity of one contract grows back to its runner of two. */
  lemma ExampleGrows()
    ensures !NeverGrows(Example(ReduceQuantity))
  {
    ExampleIsReal(ReduceQuantity);
    var bars, bar := UnsafeSizeGrows(Example(ReduceQuantity), 4.0);
  }

  /** Whatever comes next closes such a position. */
  lemma CollapsedCloses(c: Config, p: Position, bar: Bar)
    requires p.target == p.entry == p.stop && p.partialTaken && WellFormed(bar)
    ensures OnBar(c, Some(p), bar) == (None, Some(Close))
  {
  }

  /** The target lies strictly beyond the entry in every run if and only if it cannot collapse. */
  lemma TargetAheadIff(c: Config)
    requires ValidConfig(c)
    ensures TargetStaysAhead(c) <==> !(CanCollapse(c) && SomePartial(c))
  {
    if CanCollapse(c) && SomePartial(c) {
      var q :| CanEnterWith(c, q) && TakesPartial(c, q);
      var bars := TargetCollapses(c, q);
    } else {
      forall bars | Live(bars) && RunAll(c, bars).Some? ensures TargetAhead(RunAll(c, bars).value) {
        RunKeeps(c, bars);
      }
    }
  }

  /** A partial that moves the stop to the entry. */
  lemma StopReachesEntry(c: Config, q: real) returns (bars: seq<Bar>)
    requires ValidConfig(c) && CanEnterWith(c, q) && TakesPartial(c, q) && c.breakeven
    ensures Live(bars) && RunAll(c, bars).Some? && !StopBehind(RunAll(c, bars).value)
  {
    var atr: real, sizeDown: bool :| atr > 0.0 && EntryQuantity(c, atr, sizeDown) == q;
    var d := StopDistance(c, atr);
    var entry := EntryBar(d, atr, sizeDown);
    EntryOpens(c, q, atr, sizeDown);
    BarsAreWellFormed(c, d);
    RatioExact(d, 0.0);
    Levels(d, 0.0, c.partialR);
    assert Excursion(Opened(c, q, d), RiseBar(c, d)).adverse == 0.0;
    RiseTakesPartial(c, Opened(c, q, d), Base(d));
    RunStep(c, [entry], RiseBar(c, d));
    bars := [entry] + [RiseBar(c, d)];
  }

  /** Stop and target strictly bracket the entry in every run if and only if no partial moves the stop to break-even. */
  lemma BracketedIff(c: Config)
    requires ValidConfig(c)
    ensures StaysBracketed(c) <==> !(c.breakeven && SomePartial(c))
  {
    if c.breakeven && SomePartial(c) {
      var q :| CanEnterWith(c, q) && TakesPartial(c, q);
      var bars := StopReachesEntry(c, q);
    } else {
      forall bars | Live(bars) && RunAll(c, bars).Some?
        ensures StopBehind(RunAll(c, bars).value) && TargetAhead(RunAll(c, bars).value)
      {
        RunKeeps(c, bars);
      }
    }
  }

  /** A close ends a position, and targets in a row are of one position: the same side. */
  ghost predicate FollowsOn(intents: seq<Intent>, i: nat)
    requires i < |intents|
  {
    if i == 0 then intents[i].Target?
    else
      && (intents[i].Close? ==> intents[i - 1].Target?)
      && (intents[i].Target? && intents[i - 1].Target? ==>
            (intents[i].quantity > 0.0 <==> intents[i - 1].quantity > 0.0))
  }

  /** The position is open exactly between a target and a close, and what is held is the last target. */
  ghost predicate MatchesIntents(p: Option<Position>, intents: seq<Intent>) {
    && (forall i :: 0 <= i < |intents| ==> FollowsOn(intents, i))
    && (p.Some? <==> intents != [] && intents[|intents| - 1].Target?)
    && (p.Some? ==> intents[|intents| - 1] == Target(p.value.held))
  }

  /** How an intent relates to what is open before and after it. */
  ghost predicate Moves(p: Option<Position>, p': Option<Position>, intent: Option<Intent>) {
    match intent
    case None => p'.Some? == p.Some? && (p.Some? ==> p'.value.held == p.value.held)
    case Some(Close) => p.Some? && p'.None?
    case Some(Target(q)) => p'.Some? && p'.value.held == q && (p.Some? ==> (q > 0.0 <==> p.value.held > 0.0))
  }

  lemma BarIntent(c: Config, p: Option<Position>, bar: Bar)
    requires ValidConfig(c) && bar.atr > 0.0 && (p.Some? ==> OpenInvariant(c, p.value))
    ensures var (p', intent) := OnBar(c, p, bar); Moves(p, p', intent)
  {
    if p.Some? {
      StepKeeps(c, p.value, bar);
      OpenBarMoves(c, p.value, bar);
    }
  }

  lemma OpenBarMoves(c: Config, p: Position, bar: Bar)
    requires ValidConfig(c) && OpenInvariant(c, p)
    requires OnBar(c, Some(p), bar).0.Some? ==> OpenInvariant(c, OnBar(c, Some(p), bar).0.value)
    ensures var (p', intent) := OnBar(c, Some(p), bar); Moves(Some(p), p', intent)
  {
    BarKeepsSide(c, p, bar);
  }

  lemma BarKeepsSide(c: Config, p: Position, bar: Bar)
    ensures OnBar(c, Some(p), bar).0.Some? ==> OnBar(c, Some(p), bar).0.value.side == p.side
  {
  }

  lemma AskedMore(intents: seq<Intent>, more: seq<Intent>, p: Option<Position>, p': Option<Position>,
                  intent: Option<Intent>)
    requires MatchesIntents(p, intents) && Moves(p, p', intent) && more == intents + AsSeq(intent)
    ensures MatchesIntents(p', more)
  {
    forall i | 0 <= i < |more| ensures FollowsOn(more, i) {
      if i < |intents| {
        assert FollowsOn(intents, i);
      }
    }
  }

  /** In every run the position is open exactly between a target and a close, on one side, and what is held is the
      last target asked for. */
  lemma {:induction false} RunMatchesIntents(c: Config, bars: seq<Bar>)
    requires ValidConfig(c) && Live(bars)
    ensures MatchesIntents(RunAll(c, bars), Asked(c, bars))
  {
    if bars != [] {
      var init, bar := bars[..|bars| - 1], bars[|bars| - 1];
      RunMatchesIntents(c, init);
      RunKeeps(c, init);
      BarIntent(c, RunAll(c, init), bar);
      AskedMore(Asked(c, init), Asked(c, bars), RunAll(c, init), RunAll(c, bars), OnBar(c, RunAll(c, init), bar).1);
    }
  }

  // ---------------------------------------------------------------- the strategy object

  /** The position fields of the strategy; `intents` records what it asked of its context. */
  class FactorStrategy {
    const c: Config
    var open: bool
    var side: Side
    var entry: real
    var stop: real
    var target: real
    var partialTarget: Option<real>
    var size: real
    var runner: real
    var partialTaken: bool
    var bars: nat
    var adverse: real
    var favorable: real
    var acted: bool
    var intents: seq<Intent>
    ghost var distance: real
    ghost var held: real

    ghost function Current(): Position
      reads this
    {
      Position(side, entry, stop, target, partialTarget, size, runner, partialTaken, bars, adverse, favorable,
               acted, distance, held)
    }

    ghost function View(): Option<Position>
      reads this
    {
      if open then Some(Current()) else None
    }

    ghost predicate Valid()
      reads this
    {
      ValidConfig(c) && (open ==> OpenInvariant(c, Current())) && MatchesIntents(View(), intents)
    }

    constructor (c: Config)
      requires ValidConfig(c)
      ensures Valid() && this.c == c && View() == None && intents == []
    {
      this.c := c;
      open, side, partialTarget, intents := false, Long, None, [];
    }

    method Exit()
      modifies this
      ensures View() == None && intents == old(intents) + [Close]
    {
      intents := intents + [Close];
      open := false;
    }

    method EnterPosition(direction: Side, bar: Bar)
      requires !open
      modifies this
      ensures View() == Enter(c, direction, bar).0
      ensures intents == old(intents) + AsSeq(Enter(c, direction, bar).1)
    {
      var quantity := EntryQuantity(c, bar.atr, bar.sizeDown);
      if quantity <= 0.0 {
        return;
      }
      FillPosition(direction, bar, quantity);
      intents := intents + [Target(Signed(direction, quantity))];
    }

    method FillPosition(direction: Side, bar: Bar, quantity: real)
      modifies this
      ensures open && Current() == OpenAt(c, direction, bar, quantity) && intents == old(intents)
    {
      SetPrices(direction, bar);
      ClearProgress();
      open, size, runner, held := true, quantity, quantity, Signed(direction, quantity);
    }

    method SetPrices(direction: Side, bar: Bar)
      modifies this`side, this`entry, this`stop, this`target, this`partialTarget, this`distance
      ensures var p := OpenAt(c, direction, bar, 0.0);
              && side == p.side && entry == p.entry && stop == p.stop && target == p.target
              && partialTarget == p.partialTarget && distance == p.distance
    {
      var stopDistance := StopDistance(c, bar.atr);
      side, entry, stop := direction, bar.close, Beyond(direction, bar.close, -stopDistance);
      target := Beyond(direction, bar.close, Scaled(stopDistance, FinalTarget(c, bar.badRegime)));
      partialTarget := None;
      if c.exitStyle.PartialRunner? {
        partialTarget := Some(Beyond(direction, bar.close, Scaled(stopDistance, c.partialR)));
      }
      distance := stopDistance;
    }

    method ClearProgress()
      modifies this`partialTaken, this`bars, this`adverse, this`favorable, this`acted
      ensures !partialTaken && bars == 0 && adverse == 0.0 && favorable == 0.0 && !acted
    {
      partialTaken, bars, adverse, favorable, acted := false, 0, 0.0, 0.0, false;
    }

    method UpdateExcursion(bar: Bar)
      requires open
      modifies this`bars, this`adverse, this`favorable
      ensures Current() == Excursion(old(Current()), bar)
    {
      if entry == stop {
        return;
      }
      bars := bars + 1;
      var stopDistance := Abs(entry - stop);
      var loss, gain := bar.high - entry, entry - bar.low;
      if side.Long? {
        loss, gain := entry - bar.low, bar.high - entry;
      }
      adverse, favorable := Max(adverse, Ratio(loss, stopDistance)), Max(favorable, Ratio(gain, stopDistance));
    }

    method ApplyPartialRunner()
      requires open
      modifies this
      ensures open && Current() == ApplyPartial(c, old(Current())).0
      ensures intents == old(intents) + AsSeq(ApplyPartial(c, old(Current())).1)
    {
      var off := PartialQuantity(c, size);
      var left := size - off;
      if off <= 0.0 || left <= 0.0 {
        return;
      }
      runner, partialTaken := left, true;
      if c.breakeven {
        stop := entry;
      }
      held := Signed(side, left);
      intents := intents + [Target(Signed(side, left))];
    }

    method ApplyNoProgressAction()
      requires open
      modifies this
      ensures open && Current() == ApplyAction(c, old(Current())).0
      ensures intents == old(intents) + AsSeq(ApplyAction(c, old(Current())).1)
    {
      if acted {
        return;
      }
      if c.action.ReduceTarget? {
        target := Beyond(side, entry, Scaled(Abs(entry - stop), c.reducedTargetR));
      }
      if c.action.ReduceQuantity? {
        held := Signed(side, c.reducedQuantity);
        intents := intents + [Target(Signed(side, c.reducedQuantity))];
      }
      acted := true;
    }

    method TakeStepEntered(bar: Bar)
      requires open
      modifies this
      ensures View() == StepEntered(c, old(Current()), bar).0
      ensures intents == old(intents) + AsSeq(StepEntered(c, old(Current()), bar).1)
    {
      UpdateExcursion(bar);
      var stalled := c.progressBars > 0 && 0 < bars <= c.progressBars
                     && adverse >= c.adverseR && favorable < c.favorableR;
      if c.exitOnVwapCross && CrossesVwap(side, bar) {
        Exit();
      } else if stalled && c.action.ExitAction? {
        Exit();
      } else if TouchesBehind(side, bar, stop) {
        Exit();
      } else if c.exitStyle.PartialRunner? && !partialTaken && partialTarget.Some?
                && TouchesAhead(side, bar, partialTarget.value) {
        ApplyPartialRunner();
      } else if TouchesAhead(side, bar, target) {
        Exit();
      } else if stalled {
        ApplyNoProgressAction();
      }
    }

    method Observe(bar: Bar)
      requires Valid() && bar.atr > 0.0
      modifies this
      ensures Valid() && View() == OnBar(c, old(View()), bar).0
      ensures intents == old(intents) + AsSeq(OnBar(c, old(View()), bar).1)
    {
      var (p, intent) := OnBar(c, View(), bar);
      BarIntent(c, View(), bar);
      AskedMore(intents, intents + AsSeq(intent), View(), p, intent);
      if open {
        StepKeeps(c, Current(), bar);
        if bar.nearClose {
          Exit();
        } else {
          TakeStepEntered(bar);
        }
      } else if bar.signal.Some? {
        EnterKeeps(c, bar.signal.value, bar);
        EnterPosition(bar.signal.value, bar);
      }
    }
  }

  function AsSeq(intent: Option<Intent>): seq<Intent> { if intent.Some? then [intent.value] else [] }
}
