/** The exposure cap and the rebalancing dead band of strategies/research/precious_metal_tsmom_vol.py. A symbol is
    its position in the strategy's list of symbols. */
module TsmomTargets {
  import opened Optional
  import opened Reals
  import opened Intents

  datatype Config = Config(minScore: real, fullScore: real, cap: real, quantity: real, threshold: real,
                           allowShort: bool, interval: nat)

  ghost predicate ValidConfig(c: Config) {
    0.0 <= c.minScore < c.fullScore && c.cap > 0.0 && c.quantity > 0.0 && c.threshold >= 0.0 && c.interval > 0
  }

  /** What the price history of one symbol says. */
  datatype Signal = Signal(score: real, volatility: real)

  /** What is asked of the context for one of the symbols. */
  datatype SymbolIntent = SymbolIntent(symbol: nat, intent: Intent)

  function Scaled(x: real, k: real): real { x * k }
  function Ratio(x: real, y: real): real
    requires y != 0.0
  {
    x / y
  }

  /** `k` times the same amount. */
  ghost function Times(k: nat, x: real): real { if k == 0 then 0.0 else Times(k - 1, x) + x }

  ghost function SumAbs(xs: seq<real>): real {
    if xs == [] then 0.0 else SumAbs(xs[..|xs| - 1]) + Abs(xs[|xs| - 1])
  }

  // ---------------------------------------------------------------- targets

  function TargetForScore(c: Config, s: Signal): real
    requires c.fullScore > 0.0
  {
    if s.volatility <= 0.0 || Abs(s.score) < c.minScore then 0.0
    else if s.score < 0.0 && !c.allowShort then 0.0
    else
      var scale := if Ratio(Abs(s.score), c.fullScore) > 1.0 then 1.0 else Ratio(Abs(s.score), c.fullScore);
      if scale < 1.0 then 0.0 else if s.score > 0.0 then c.quantity else -c.quantity
  }

  ghost function RawTargets(c: Config, signals: seq<Signal>): seq<real>
    requires c.fullScore > 0.0
  {
    seq(|signals|, i requires 0 <= i < |signals| => TargetForScore(c, signals[i]))
  }

  ghost function Rescaled(xs: seq<real>, k: real): seq<real> {
    seq(|xs|, i requires 0 <= i < |xs| => Scaled(xs[i], k))
  }

  ghost function Targets(c: Config, signals: seq<Signal>): seq<real>
    requires ValidConfig(c)
  {
    var raw := RawTargets(c, signals);
    if SumAbs(raw) <= c.cap then raw else Rescaled(raw, Ratio(c.cap, SumAbs(raw)))
  }

  method ComputeTargets(c: Config, signals: seq<Signal>) returns (targets: seq<real>)
    requires ValidConfig(c)
    ensures targets == Targets(c, signals)
  {
    var raw, total := [], 0.0;
    for i := 0 to |signals|
      invariant raw == RawTargets(c, signals[..i]) && total == SumAbs(raw)
    {
      ghost var before := raw;
      var target := TargetForScore(c, signals[i]);
      raw, total := raw + [target], total + Abs(target);
      assert raw[..|raw| - 1] == before;
      assert signals[..i + 1] == signals[..i] + [signals[i]];
    }
    assert signals[..|signals|] == signals;
    if total <= c.cap {
      return raw;
    }
    var scale := Ratio(c.cap, total);
    targets := [];
    for i := 0 to |raw|
      invariant targets == Rescaled(raw[..i], scale)
    {
      targets := targets + [Scaled(raw[i], scale)];
    }
    assert raw[..|raw|] == raw;
  }

  /** The side a signal asks for: it must be strong enough for the full quantity, and allowed. */
  ghost function Side(c: Config, s: Signal): int {
    if s.volatility <= 0.0 || Abs(s.score) < c.fullScore || (s.score < 0.0 && !c.allowShort) then 0
    else if s.score > 0.0 then 1 else -1
  }

  ghost function Signed(side: int, x: real): real { if side > 0 then x else if side < 0 then -x else 0.0 }

  ghost function Active(c: Config, signals: seq<Signal>): nat {
    if signals == [] then 0
    else Active(c, signals[..|signals| - 1]) + (if Side(c, signals[|signals| - 1]) != 0 then 1 else 0)
  }

  /** The size each of `k` active symbols gets: the full quantity, or an equal share of the cap. */
  ghost function Level(c: Config, k: nat): real
    requires c.cap > 0.0
  {
    if Times(k, c.quantity) <= c.cap then c.quantity
    else Scaled(c.quantity, Ratio(c.cap, Times(k, c.quantity)))
  }

  lemma RatioReachesOne(x: real, y: real)
    requires y > 0.0
    ensures Ratio(x, y) >= 1.0 <==> x >= y
  {
  }

  /** A target is all or nothing: the quantity is never a fraction of the full one. */
  lemma TargetIsSigned(c: Config, s: Signal)
    requires ValidConfig(c)
    ensures TargetForScore(c, s) == Signed(Side(c, s), c.quantity)
  {
    RatioReachesOne(Abs(s.score), c.fullScore);
  }

  lemma RawAt(c: Config, signals: seq<Signal>, i: nat)
    requires ValidConfig(c) && i < |signals|
    ensures RawTargets(c, signals)[i] == Signed(Side(c, signals[i]), c.quantity)
    ensures Abs(RawTargets(c, signals)[i]) == if Side(c, signals[i]) == 0 then 0.0 else c.quantity
  {
    TargetIsSigned(c, signals[i]);
  }

  lemma {:induction false} RawSum(c: Config, signals: seq<Signal>)
    requires ValidConfig(c)
    ensures SumAbs(RawTargets(c, signals)) == Times(Active(c, signals), c.quantity)
  {
    if signals != [] {
      var front := signals[..|signals| - 1];
      RawSum(c, front);
      assert RawTargets(c, signals)[..|signals| - 1] == RawTargets(c, front);
      RawAt(c, signals, |signals| - 1);
    }
  }

  lemma SignedScale(side: int, x: real, k: real)
    ensures Scaled(Signed(side, x), k) == Signed(side, Scaled(x, k))
  {
  }

  lemma {:induction false} TimesScaled(k: nat, x: real, y: real)
    ensures Times(k, Scaled(x, y)) == Scaled(Times(k, x), y)
  {
    if k > 0 {
      TimesScaled(k - 1, x, y);
      ScaledSum(Times(k - 1, x), x, y);
    }
  }

  lemma ScaledSum(x: real, z: real, y: real)
    ensures Scaled(x + z, y) == Scaled(x, y) + Scaled(z, y)
  {
  }

  lemma ScaledRatio(x: real, y: real)
    requires x != 0.0
    ensures Scaled(x, Ratio(y, x)) == y
  {
  }

  /** Above the cap, the active symbols share it equally. */
  lemma EqualShare(c: Config, k: nat)
    requires ValidConfig(c) && Times(k, c.quantity) > c.cap
    ensures Times(k, Level(c, k)) == c.cap
  {
    TimesScaled(k, c.quantity, Ratio(c.cap, Times(k, c.quantity)));
    ScaledRatio(Times(k, c.quantity), c.cap);
  }

  /** Every symbol is flat or holds the level of the number of active symbols, on the side of its signal. */
  lemma TargetsAreLevels(c: Config, signals: seq<Signal>, i: nat)
    requires ValidConfig(c) && i < |signals|
    ensures |Targets(c, signals)| == |signals|
    ensures Targets(c, signals)[i] == Signed(Side(c, signals[i]), Level(c, Active(c, signals)))
  {
    RawSum(c, signals);
    RawAt(c, signals, i);
    var total := Times(Active(c, signals), c.quantity);
    if total > c.cap {
      SignedScale(Side(c, signals[i]), c.quantity, Ratio(c.cap, total));
    }
  }

  lemma AbsScaled(x: real, k: real)
    requires k >= 0.0
    ensures Abs(Scaled(x, k)) == Scaled(Abs(x), k)
  {
  }

  lemma {:induction false} RescaledSum(xs: seq<real>, k: real)
    requires k >= 0.0
    ensures SumAbs(Rescaled(xs, k)) == Scaled(SumAbs(xs), k)
  {
    if xs != [] {
      var front, last := xs[..|xs| - 1], xs[|xs| - 1];
      RescaledSum(front, k);
      ScaledSum(SumAbs(front), Abs(last), k);
      AbsScaled(last, k);
      assert Rescaled(xs, k)[..|xs| - 1] == Rescaled(xs[..|xs| - 1], k);
    }
  }

  /** The targets together are exactly what was asked for, or the cap if that is less. */
  lemma TargetsTotal(c: Config, signals: seq<Signal>)
    requires ValidConfig(c)
    ensures SumAbs(Targets(c, signals))
         == if Times(Active(c, signals), c.quantity) <= c.cap then Times(Active(c, signals), c.quantity) else c.cap
  {
    RawSum(c, signals);
    var raw := RawTargets(c, signals);
    if SumAbs(raw) > c.cap {
      RescaledSum(raw, Ratio(c.cap, SumAbs(raw)));
      ScaledRatio(SumAbs(raw), c.cap);
    }
  }

  // ---------------------------------------------------------------- the dead band

  /** A change smaller than the threshold is not made. */
  function Settle(threshold: real, current: real, target: real): real {
    if Abs(target - current) < threshold then current else target
  }

  ghost function Applied(c: Config, current: seq<real>, targets: seq<real>): seq<real>
    requires |current| == |targets|
  {
    seq(|current|, i requires 0 <= i < |current| => Settle(c.threshold, current[i], targets[i]))
  }

  function Order(c: Config, i: nat, current: real, target: real): seq<SymbolIntent> {
    if Abs(target - current) < c.threshold then []
    else if target == 0.0 then [SymbolIntent(i, Close)] else [SymbolIntent(i, Target(target))]
  }

  /** The orders sent for the first `n` symbols. */
  ghost function Orders(c: Config, current: seq<real>, targets: seq<real>, n: nat): seq<SymbolIntent>
    requires n <= |current| == |targets|
  {
    if n == 0 then [] else Orders(c, current, targets, n - 1) + Order(c, n - 1, current[n - 1], targets[n - 1])
  }

  ghost function Flat(n: nat): seq<real> { seq(n, i => 0.0) }

  /** The signals of every rebalance, one per symbol. */
  ghost predicate Fits(n: nat, rounds: seq<seq<Signal>>) {
    forall i :: 0 <= i < |rounds| ==> |rounds[i]| == n
  }

  ghost function Wanted(c: Config, n: nat, rounds: seq<seq<Signal>>): seq<real>
    requires ValidConfig(c)
  {
    if rounds == [] then Flat(n) else Targets(c, rounds[|rounds| - 1])
  }

  /** The targets in force after a sequence of rebalances. */
  ghost function Position(c: Config, n: nat, rounds: seq<seq<Signal>>): (r: seq<real>)
    requires ValidConfig(c) && Fits(n, rounds)
    ensures |r| == n
  {
    if rounds == [] then Flat(n) else Applied(c, Position(c, n, rounds[..|rounds| - 1]), Wanted(c, n, rounds))
  }

  lemma {:induction false} AppliedTotal(c: Config, current: seq<real>, targets: seq<real>)
    requires c.threshold >= 0.0 && |current| == |targets|
    ensures SumAbs(Applied(c, current, targets)) <= SumAbs(targets) + Times(|targets|, c.threshold)
  {
    if targets != [] {
      var n := |targets| - 1;
      AppliedTotal(c, current[..n], targets[..n]);
      assert Applied(c, current, targets)[..n] == Applied(c, current[..n], targets[..n]);
    }
  }

  lemma {:induction false} FlatTotal(n: nat)
    ensures SumAbs(Flat(n)) == 0.0
  {
    if n > 0 {
      FlatTotal(n - 1);
      assert Flat(n)[..n - 1] == Flat(n - 1);
    }
  }

  lemma {:induction false} TimesNonNegative(k: nat, x: real)
    requires x >= 0.0
    ensures Times(k, x) >= 0.0
  {
    if k > 0 {
      TimesNonNegative(k - 1, x);
    }
  }

  /** After any sequence of rebalances the exposure exceeds the cap by at most one threshold per symbol. */
  lemma ExposureBound(c: Config, n: nat, rounds: seq<seq<Signal>>)
    requires ValidConfig(c) && Fits(n, rounds)
    ensures SumAbs(Position(c, n, rounds)) <= c.cap + Times(n, c.threshold)
  {
    if rounds == [] {
      FlatTotal(n);
      TimesNonNegative(n, c.threshold);
    } else {
      AppliedTotal(c, Position(c, n, rounds[..|rounds| - 1]), Wanted(c, n, rounds));
      TargetsTotal(c, rounds[|rounds| - 1]);
    }
  }

  // ---------------------------------------------------------------- when the dead band never bites

  ghost predicate Possible(c: Config, n: nat, k: nat, side: int) {
    k <= n && -1 <= side <= 1 && (side != 0 ==> k > 0) && (side < 0 ==> c.allowShort)
  }

  /** Any two different targets a symbol can be given are at least a threshold apart. */
  ghost predicate Separated(c: Config, n: nat)
    requires c.cap > 0.0
  {
    forall k, side, k', side' :: Possible(c, n, k, side) && Possible(c, n, k', side') ==>
      Apart(c.threshold, Signed(side, Level(c, k)), Signed(side', Level(c, k')))
  }

  ghost predicate Apart(threshold: real, x: real, y: real) { x == y || Abs(y - x) >= threshold }

  /** After every rebalance of every run the targets in force are the targets computed. */
  ghost predicate Follows(c: Config, n: nat)
    requires ValidConfig(c)
  {
    forall rounds :: Fits(n, rounds) ==> Position(c, n, rounds) == Wanted(c, n, rounds)
  }

  lemma {:induction false} ActiveCount(c: Config, signals: seq<Signal>)
    ensures Active(c, signals) <= |signals|
    ensures forall i :: 0 <= i < |signals| && Side(c, signals[i]) != 0 ==> Active(c, signals) > 0
  {
    if signals != [] {
      ActiveCount(c, signals[..|signals| - 1]);
    }
  }

  /** What is wanted of a symbol is one of the possible targets. */
  lemma WantedIsPossible(c: Config, n: nat, rounds: seq<seq<Signal>>, i: nat) returns (k: nat, side: int)
    requires ValidConfig(c) && Fits(n, rounds) && i < n
    ensures |Wanted(c, n, rounds)| == n
    ensures Possible(c, n, k, side) && Wanted(c, n, rounds)[i] == Signed(side, Level(c, k))
  {
    if rounds == [] {
      return 0, 0;
    }
    var signals := rounds[|rounds| - 1];
    TargetsAreLevels(c, signals, i);
    ActiveCount(c, signals);
    return Active(c, signals), Side(c, signals[i]);
  }

  lemma {:induction false} SeparatedFollows(c: Config, n: nat, rounds: seq<seq<Signal>>)
    requires ValidConfig(c) && Fits(n, rounds) && Separated(c, n)
    ensures Position(c, n, rounds) == Wanted(c, n, rounds)
  {
    if rounds != [] {
      var before := rounds[..|rounds| - 1];
      SeparatedFollows(c, n, before);
      forall i | 0 <= i < n
        ensures |Wanted(c, n, rounds)| == n && Position(c, n, rounds)[i] == Wanted(c, n, rounds)[i]
      {
        var k, side := WantedIsPossible(c, n, before, i);
        var k', side' := WantedIsPossible(c, n, rounds, i);
        assert Apart(c.threshold, Signed(side, Level(c, k)), Signed(side', Level(c, k')));
      }
    }
  }

  /** A signal just strong enough for a side, or none. */
  ghost function Strongly(c: Config, side: int): Signal {
    if side == 0 then Signal(0.0, 0.0) else Signal(Signed(side, c.fullScore), 1.0)
  }

  /** Signals that ask for one side in `k` symbols from `first` on and for nothing in the others. */
  ghost function Asking(c: Config, n: nat, first: nat, k: nat, side: int): seq<Signal> {
    seq(n, i => if first <= i < first + k then Strongly(c, side) else Strongly(c, 0))
  }

  lemma AskingSide(c: Config, n: nat, first: nat, k: nat, side: int, i: nat)
    requires ValidConfig(c) && Possible(c, n, k, side) && i < n
    ensures Side(c, Asking(c, n, first, k, side)[i]) == if first <= i < first + k then side else 0
  {
    var s := Asking(c, n, first, k, side)[i];
    assert s == if first <= i < first + k then Strongly(c, side) else Strongly(c, 0);
  }

  lemma {:induction false} AskingActive(c: Config, n: nat, first: nat, k: nat, side: int, j: nat)
    requires ValidConfig(c) && Possible(c, n, k, side) && side != 0 && first + k <= n && j <= n
    ensures Active(c, Asking(c, n, first, k, side)[..j])
         == if j < first then 0 else if j < first + k then j - first else k
  {
    if j > 0 {
      AskingActive(c, n, first, k, side, j - 1);
      AskingSide(c, n, first, k, side, j - 1);
      var signals := Asking(c, n, first, k, side);
      assert signals[..j][..j - 1] == signals[..j - 1];
    }
  }

  /** They get the level of `k`. */
  lemma AskingGets(c: Config, n: nat, first: nat, k: nat, side: int)
    requires ValidConfig(c) && Possible(c, n, k, side) && first + k <= n
    ensures |Targets(c, Asking(c, n, first, k, side))| == n
    ensures forall i :: 0 <= i < n ==>
              Targets(c, Asking(c, n, first, k, side))[i]
              == if first <= i < first + k then Signed(side, Level(c, k)) else 0.0
  {
    var signals := Asking(c, n, first, k, side);
    if side != 0 {
      AskingActive(c, n, first, k, side, n);
      assert signals[..n] == signals;
    }
    forall i | 0 <= i < n
      ensures |Targets(c, signals)| == n
      ensures Targets(c, signals)[i] == if first <= i < first + k then Signed(side, Level(c, k)) else 0.0
    {
      TargetsAreLevels(c, signals, i);
      AskingSide(c, n, first, k, side, i);
    }
  }

  /** The strategy holds exactly the targets it computes, in every run, if and only if the possible targets are
      at least a threshold apart. */
  lemma FollowsIff(c: Config, n: nat)
    requires ValidConfig(c) && n > 0
    ensures Follows(c, n) <==> Separated(c, n)
  {
    if Separated(c, n) {
      forall rounds | Fits(n, rounds)
        ensures Position(c, n, rounds) == Wanted(c, n, rounds)
      {
        SeparatedFollows(c, n, rounds);
      }
    }
    if Follows(c, n) {
      forall k, side, k', side' | Possible(c, n, k, side) && Possible(c, n, k', side')
        ensures Apart(c.threshold, Signed(side, Level(c, k)), Signed(side', Level(c, k')))
      {
        FollowsSeparates(c, n, k, side, k', side');
      }
    }
  }

  lemma FollowsSeparates(c: Config, n: nat, k: nat, side: int, k': nat, side': int)
    requires ValidConfig(c) && n > 0 && Follows(c, n) && Possible(c, n, k, side) && Possible(c, n, k', side')
    ensures Apart(c.threshold, Signed(side, Level(c, k)), Signed(side', Level(c, k')))
  {
    var first, second := Asking(c, n, 0, k, side), Asking(c, n, 0, k', side');
    AskingGets(c, n, 0, k, side);
    AskingGets(c, n, 0, k', side');
    OneMoreRound(c, n, [], first);
    OneMoreRound(c, n, [first], second);
    assert [first] == [] + [first];
    assert Position(c, n, [first]) == Wanted(c, n, [first]) == Targets(c, first);
    assert Position(c, n, [first] + [second]) == Wanted(c, n, [first] + [second]) == Targets(c, second);
    assert Targets(c, second)[0] == Settle(c.threshold, Targets(c, first)[0], Targets(c, second)[0]);
  }

  lemma OneMoreRound(c: Config, n: nat, rounds: seq<seq<Signal>>, signals: seq<Signal>)
    requires ValidConfig(c) && Fits(n, rounds) && |signals| == n
    ensures Fits(n, rounds + [signals]) && |Targets(c, signals)| == n
    ensures Position(c, n, rounds + [signals]) == Applied(c, Position(c, n, rounds), Targets(c, signals))
  {
    assert (rounds + [signals])[..|rounds|] == rounds;
  }

  // ---------------------------------------------------------------- runs

  /** The histories of all symbols when each is long enough and they end together. */
  datatype Snapshot = Snapshot(end: int, signals: seq<Signal>)
  datatype Bar = Bar(own: bool, end: int, data: Option<Snapshot>)

  /** The strategy's fields, then the orders sent and the rebalances made. */
  datatype State = State(lastCounted: Option<int>, count: nat, lastDecision: Option<int>, current: seq<real>,
                         intents: seq<SymbolIntent>, rounds: seq<seq<Signal>>)

  ghost predicate BarFits(n: nat, bar: Bar) { bar.data.Some? ==> |bar.data.value.signals| == n }

  ghost function Start(n: nat): State { State(None, 0, None, Flat(n), [], []) }

  ghost function Rebalance(c: Config, s: State, snapshot: Snapshot): State
    requires ValidConfig(c) && |s.current| == |snapshot.signals|
  {
    var targets := Targets(c, snapshot.signals);
    s.(lastDecision := Some(snapshot.end), current := Applied(c, s.current, targets),
       intents := s.intents + Orders(c, s.current, targets, |targets|), rounds := s.rounds + [snapshot.signals])
  }

  ghost function OnBar(c: Config, s: State, bar: Bar): State
    requires ValidConfig(c) && BarFits(|s.current|, bar)
  {
    if !bar.own then s
    else
      var s := if s.lastCounted != Some(bar.end) then s.(lastCounted := Some(bar.end), count := s.count + 1) else s;
      if s.count % c.interval != 0 || bar.data.None? || s.lastDecision == Some(bar.data.value.end) then s
      else Rebalance(c, s, bar.data.value)
  }

  /** A bar leads to a rebalance exactly when it is the strategy's own, its count is a multiple of the interval, all
      histories are there and end at a time not decided on yet; a bar counts when its time is new. */
  lemma RebalancesIff(c: Config, s: State, bar: Bar)
    requires ValidConfig(c) && BarFits(|s.current|, bar)
    ensures var r := OnBar(c, s, bar);
            var count := s.count + (if bar.own && s.lastCounted != Some(bar.end) then 1 else 0);
            var acts := && bar.own && count % c.interval == 0
                        && bar.data.Some? && s.lastDecision != Some(bar.data.value.end);
            && r.count == count && r.lastCounted == (if bar.own then Some(bar.end) else s.lastCounted)
            && (if acts then && r.rounds == s.rounds + [bar.data.value.signals]
                             && r.lastDecision == Some(bar.data.value.end)
                             && r.current == Applied(c, s.current, Targets(c, bar.data.value.signals))
                else r == s.(count := r.count, lastCounted := r.lastCounted))
  {
  }

  /** What the orders sent so far leave in force for a symbol. */
  ghost function Held(intents: seq<SymbolIntent>, symbol: nat): real {
    if intents == [] then 0.0
    else
      var last := intents[|intents| - 1];
      if last.symbol != symbol then Held(intents[..|intents| - 1], symbol)
      else if last.intent.Close? then 0.0 else last.intent.quantity
  }

  /** The strategy's record of its targets is what its orders say, and what its rebalances lead to. */
  ghost predicate Faithful(c: Config, n: nat, s: State)
    requires ValidConfig(c)
  {
    && Fits(n, s.rounds) && s.current == Position(c, n, s.rounds)
    && forall i :: 0 <= i < n ==> Held(s.intents, i) == s.current[i]
  }

  lemma HeldAppend(intents: seq<SymbolIntent>, last: SymbolIntent, symbol: nat)
    ensures Held(intents + [last], symbol)
         == if last.symbol != symbol then Held(intents, symbol)
            else if last.intent.Close? then 0.0 else last.intent.quantity
  {
    assert (intents + [last])[..|intents|] == intents;
  }

  /** One symbol's order puts its settled target in force and touches no other symbol. */
  lemma OrderHeld(c: Config, sent: seq<SymbolIntent>, k: nat, current: real, target: real, i: nat)
    requires Held(sent, k) == current
    ensures Held(sent + Order(c, k, current, target), i)
         == if i == k then Settle(c.threshold, current, target) else Held(sent, i)
  {
    var order := Order(c, k, current, target);
    if order == [] {
      assert sent + order == sent;
    } else {
      HeldAppend(sent, order[0], i);
    }
  }

  lemma {:induction false} OrdersHeld(c: Config, intents: seq<SymbolIntent>, current: seq<real>, targets: seq<real>,
                                      n: nat)
    requires n <= |current| == |targets| && forall i :: 0 <= i < |current| ==> Held(intents, i) == current[i]
    ensures var sent := intents + Orders(c, current, targets, n);
            forall i :: 0 <= i < |current| ==>
              Held(sent, i) == if i < n then Settle(c.threshold, current[i], targets[i]) else current[i]
  {
    if n == 0 {
      assert intents + Orders(c, current, targets, n) == intents;
    } else {
      OrdersHeld(c, intents, current, targets, n - 1);
      var order := Order(c, n - 1, current[n - 1], targets[n - 1]);
      var sent := intents + Orders(c, current, targets, n - 1);
      assert intents + Orders(c, current, targets, n) == sent + order;
      forall i | 0 <= i < |current|
        ensures Held(sent + order, i) == if i < n then Settle(c.threshold, current[i], targets[i]) else current[i]
      {
        OrderHeld(c, sent, n - 1, current[n - 1], targets[n - 1], i);
      }
    }
  }

  lemma RebalanceKeeps(c: Config, n: nat, s: State, snapshot: Snapshot)
    requires ValidConfig(c) && Faithful(c, n, s) && |snapshot.signals| == n
    ensures Faithful(c, n, Rebalance(c, s, snapshot))
  {
    OneMoreRound(c, n, s.rounds, snapshot.signals);
    OrdersHeld(c, s.intents, s.current, Targets(c, snapshot.signals), n);
  }

  lemma OnBarKeeps(c: Config, n: nat, s: State, bar: Bar)
    requires ValidConfig(c) && Faithful(c, n, s) && BarFits(n, bar)
    ensures Faithful(c, n, OnBar(c, s, bar))
  {
    var counted := if s.lastCounted != Some(bar.end) then s.(lastCounted := Some(bar.end), count := s.count + 1) else s;
    assert Faithful(c, n, counted);
    if bar.data.Some? {
      RebalanceKeeps(c, n, counted, bar.data.value);
    }
  }

  ghost function Run(c: Config, n: nat, bars: seq<Bar>): (r: State)
    requires ValidConfig(c) && forall i :: 0 <= i < |bars| ==> BarFits(n, bars[i])
    ensures |r.current| == n
  {
    if bars == [] then Start(n) else OnBar(c, Run(c, n, bars[..|bars| - 1]), bars[|bars| - 1])
  }

  /** In every run the recorded targets are those the orders left in force, and their total exposure exceeds the cap
      by at most one threshold per symbol. */
  lemma {:induction false} RunBound(c: Config, n: nat, bars: seq<Bar>)
    requires ValidConfig(c) && forall i :: 0 <= i < |bars| ==> BarFits(n, bars[i])
    ensures Faithful(c, n, Run(c, n, bars)) && SumAbs(Run(c, n, bars).current) <= c.cap + Times(n, c.threshold)
  {
    if bars != [] {
      RunBound(c, n, bars[..|bars| - 1]);
      OnBarKeeps(c, n, Run(c, n, bars[..|bars| - 1]), bars[|bars| - 1]);
    }
    ExposureBound(c, n, Run(c, n, bars).rounds);
  }

  // ---------------------------------------------------------------- the strategy object

  class TsmomStrategy {
    const cfg: Config
    const symbols: nat
    var lastCounted: Option<int>
    var count: nat
    var lastDecision: Option<int>
    var current: seq<real>
    var intents: seq<SymbolIntent>
    ghost var rounds: seq<seq<Signal>>

    ghost function View(): State
      reads this
    {
      State(lastCounted, count, lastDecision, current, intents, rounds)
    }

    ghost predicate Valid()
      reads this
    {
      ValidConfig(cfg) && |current| == symbols && Faithful(cfg, symbols, View())
    }

    constructor (cfg: Config, symbols: nat)
      requires ValidConfig(cfg)
      ensures Valid() && this.cfg == cfg && this.symbols == symbols && View() == Start(symbols)
    {
      this.cfg, this.symbols := cfg, symbols;
      lastCounted, count, lastDecision, intents, rounds := None, 0, None, [], [];
      current := seq(symbols, i => 0.0);
    }

    method ApplyTargets(targets: seq<real>)
      requires |targets| == |current|
      modifies this`current, this`intents
      ensures current == Applied(cfg, old(current), targets)
      ensures intents == old(intents) + Orders(cfg, old(current), targets, |targets|)
    {
      for i := 0 to |targets|
        invariant |current| == |targets| && forall k :: i <= k < |targets| ==> current[k] == old(current)[k]
        invariant forall k :: 0 <= k < i ==> current[k] == Settle(cfg.threshold, old(current)[k], targets[k])
        invariant intents == old(intents) + Orders(cfg, old(current), targets, i)
      {
        var target := targets[i];
        if Abs(target - current[i]) >= cfg.threshold {
          if target == 0.0 {
            intents := intents + [SymbolIntent(i, Close)];
          } else {
            intents := intents + [SymbolIntent(i, Target(target))];
          }
          current := current[i := target];
        }
      }
    }

    method Observe(bar: Bar)
      requires Valid() && BarFits(symbols, bar)
      modifies this
      ensures View() == OnBar(cfg, old(View()), bar) && Valid()
    {
      OnBarKeeps(cfg, symbols, View(), bar);
      if !bar.own {
        return;
      }
      if lastCounted != Some(bar.end) {
        lastCounted, count := Some(bar.end), count + 1;
      }
      if count % cfg.interval != 0 || bar.data.None? || lastDecision == Some(bar.data.value.end) {
        return;
      }
      lastDecision := Some(bar.data.value.end);
      var targets := ComputeTargets(cfg, bar.data.value.signals);
      ApplyTargets(targets);
      rounds := rounds + [bar.data.value.signals];
    }
  }
}
