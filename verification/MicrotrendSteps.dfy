/** What one bar does to the microtrend and ACD switch, strategies/research/precious_metal_microtrend_acd_switch.py, in
    terms of the bar's own prices. */
module MicrotrendSteps {
  import opened Optional
  import opened Reals
  import opened Intents
  import opened MicrotrendAcd

  /** The bar touches neither the stop nor the target, both measured in units from the entry. */
  ghost predicate Untouched(side: int, entry: real, unit: real, stop: real, target: real, bar: Bar) {
    && (side == 1 ==> bar.low > entry - unit * stop && bar.high < entry + unit * target)
    && (side == -1 ==> bar.high < entry + unit * stop && bar.low > entry - unit * target)
  }

  ghost predicate Stays(c: Config, s: State, bar: Bar)
    requires OneOwner(c, s) && s.source.Some?
  {
    match s.source.value
    case Micro =>
      s.held + 1 < c.microMaxHold && Untouched(s.side, s.entry.value, s.atr.value, c.microStop, c.microTarget, bar)
    case Acd =>
      s.held + 1 < c.acdMaxHold && Untouched(s.side, s.entry.value, s.width.value, c.acdStop, c.acdTarget, bar)
  }

  /** A held position stays open exactly when the bar touches neither its stop nor its target and its holding limit
      is not reached; otherwise it is closed. */
  lemma HeldIff(c: Config, s: State, bar: Bar)
    requires OneOwner(c, s) && s.source.Some?
    ensures var m := Manage(c, s, bar);
            && (m.side != 0 <==> Stays(c, s, bar))
            && (if Stays(c, s, bar) then m == s.(held := s.held + 1)
                else m.intents == s.intents + [Close] && m.log == s.log + [Closed(s.source.value, s.run, s.index)])
  {
    match s.source.value
    case Micro =>
    case Acd =>
  }

  /** The opening range, in basis points of the close, is wide enough, where that is asked for. */
  ghost predicate WideEnough(c: Config, a: AcdSession, bar: Bar) {
    c.microNeedsRange ==>
      && a.complete && a.high.Some? && a.low.Some? && bar.close != 0.0
      && (a.high.value - a.low.value) / bar.close * 10000.0 >= c.microMinRange
  }

  /** What an entry leaves: the side, the price, the intent and the source. */
  ghost predicate IsEntry(c: Config, s: State, m: State, up: bool, bar: Bar, source: Source) {
    && m.side == (if up then 1 else -1) && m.source == Some(source) && m.entry == Some(bar.close) && m.held == 0
    && m.intents == s.intents + [if up then Target(c.quantity) else Target(-c.quantity)]
    && m.log == s.log + [Opened(source, s.run, s.index)]
  }

  /** A flat strategy takes a microtrend entry exactly on an allowed signal, under the cap, far enough from the last
      entry and exit, with a wide enough opening range. */
  lemma MicroEntersIff(c: Config, s: State, bar: Bar)
    requires s.side == 0
    ensures var m := TryMicro(c, s, bar);
            var enters := && bar.signal.Some? && (bar.signal.value.up || c.allowShort)
                          && s.microEntries < c.microMaxEntries
                          && (s.lastEntry.Some? ==> s.index >= s.lastEntry.value + c.microMinGap)
                          && (s.lastExit.Some? ==> s.index >= s.lastExit.value + c.microCooldown)
                          && WideEnough(c, s.acd, bar);
            if enters
            then && IsEntry(c, s, m, bar.signal.value.up, bar, Micro)
                 && m.atr == Some(bar.signal.value.atr) && m.width == None
            else m == s
  {
  }

  /** The close leaves the opening range by more than the buffer, upwards or downwards. */
  ghost predicate BreaksUp(c: Config, a: AcdSession, bar: Bar)
    requires a.high.Some? && a.low.Some?
  {
    bar.close > a.high.value + (a.high.value - a.low.value) * c.buffer
  }

  ghost predicate BreaksDown(c: Config, a: AcdSession, bar: Bar)
    requires a.high.Some? && a.low.Some?
  {
    bar.close < a.low.value - (a.high.value - a.low.value) * c.buffer
  }

  /** After the opening range a flat strategy takes an ACD entry exactly when the range is complete, in time, under the
      cap, and the close leaves it on an allowed side: the side it leaves on, or the other one when failures are
      traded. */
  lemma AcdEntersIff(c: Config, s: State, bar: Bar)
    requires s.side == 0 && s.acd.bars + 1 > c.rangeBars && s.acd.high.Some? && s.acd.low.Some?
    ensures var m, a := TryAcd(c, s, bar), s.acd;
            var leaves := BreaksUp(c, a, bar) || BreaksDown(c, a, bar);
            var up := if c.breakout then BreaksUp(c, a, bar) else !BreaksUp(c, a, bar);
            var enters := && a.complete && a.bars + 1 <= c.lastEntryBar && a.entries < c.acdMaxEntries
                          && leaves && (up || c.allowShort);
            if enters
            then IsEntry(c, s, m, up, bar, Acd) && m.width.Some? && m.width.value == a.high.value - a.low.value
                 && m.atr == None && m.acd == a.(bars := a.bars + 1, entries := a.entries + 1)
            else m == s.(acd := a.(bars := a.bars + 1))
  {
  }

  /** A session change closes an open position on the spot. */
  lemma SessionChangeCloses(c: Config, s: State, bar: Bar)
    requires Discipline(c, s) && SameSession(s) && s.side != 0 && s.session != Some(bar.session)
    ensures Roll(s, bar).side == 0 && Roll(s, bar).intents == s.intents + [Close]
  {
    match s.source.value
    case Micro =>
    case Acd =>
  }
}
