/** The two-source switch of strategies/research/precious_metal_microtrend_acd_switch.py: one position,
    opened either by the microtrend signal or by the ACD opening-range breakout. */
module MicrotrendAcd {
  import opened Optional
  import opened Reals
  import opened Intents

  datatype Source = Micro | Acd

  datatype Config = Config(quantity: real, allowShort: bool,
                           microStop: real, microTarget: real, microMaxHold: nat, microMaxEntries: nat,
                           microMinGap: nat, microCooldown: nat, microNeedsRange: bool, microMinRange: real,
                           breakout: bool, rangeBars: nat, lastEntryBar: nat, buffer: real,
                           acdStop: real, acdTarget: real, acdMaxHold: nat, acdMaxEntries: nat)

  ghost predicate ValidConfig(c: Config) {
    && c.quantity > 0.0 && c.microMaxHold > 0 && c.microMaxEntries > 0 && c.microMinGap > 0 && c.microCooldown > 0
    && 0 < c.rangeBars < c.lastEntryBar && c.acdMaxHold > 0 && c.acdMaxEntries > 0
  }

  /** The microtrend factors' verdict on a bar: a direction and the ATR to size its exits by. */
  datatype Signal = Signal(up: bool, atr: real)

  datatype Bar = Bar(own: bool, end: int, session: string, high: real, low: real, close: real, signal: Option<Signal>)

  datatype AcdSession = AcdSession(id: Option<string>, bars: nat, high: Option<real>, low: Option<real>,
                                   complete: bool, entries: nat)

  /** What happened to the position: `run` numbers the sessions of the run, `index` the bars of a session. */
  datatype Event = Opened(source: Source, run: nat, index: nat) | Closed(source: Source, run: nat, index: nat)

  /** The strategy's fields, then what is recorded about the run: the intents, the events, the ordinal of the
      current session and the session in which the open position was entered. */
  datatype State = State(session: Option<string>, index: nat, microEntries: nat,
                         lastEntry: Option<nat>, lastExit: Option<nat>,
                         side: int, source: Option<Source>, entry: Option<real>, width: Option<real>, atr: Option<real>,
                         held: nat, lastTime: Option<int>, acd: AcdSession,
                         intents: seq<Intent>, log: seq<Event>, run: nat, entrySession: Option<string>)

  const NO_ACD := AcdSession(None, 0, None, None, false, 0)
  const START := State(None, 0, 0, None, None, 0, None, None, None, None, 0, None, NO_ACD, [], [], 0, None)

  // ---------------------------------------------------------------- one bar

  function CloseFor(s: State, source: Source): State {
    if s.side == 0 then s
    else
      s.(side := 0, source := None, entry := None, atr := None, width := None, held := 0,
         lastExit := if source.Micro? then Some(s.index) else s.lastExit,
         intents := s.intents + [Close], log := s.log + [Closed(source, s.run, s.index)], entrySession := None)
  }

  function EnterFor(c: Config, s: State, up: bool, price: real, source: Source, atr: Option<real>, width: Option<real>)
    : State
  {
    s.(side := if up then 1 else -1, source := Some(source), entry := Some(price),
       atr := atr, width := width, held := 0,
       microEntries := if source.Micro? then s.microEntries + 1 else s.microEntries,
       lastEntry := if source.Micro? then Some(s.index) else s.lastEntry,
       intents := s.intents + [Target(if up then c.quantity else -c.quantity)],
       log := s.log + [Opened(source, s.run, s.index)], entrySession := s.session)
  }

  function RollMicro(s: State, session: string): State {
    if s.session.None? then s.(session := Some(session), index := 1)
    else if s.session == Some(session) then s.(index := s.index + 1)
    else
      var s := if s.source == Some(Micro) then CloseFor(s, Micro) else s;
      s.(session := Some(session), index := 1, microEntries := 0, lastEntry := None, lastExit := None, run := s.run + 1)
  }

  function RollAcd(s: State, session: string): State {
    if s.acd.id.None? then s.(acd := NO_ACD.(id := Some(session)))
    else if s.acd.id == Some(session) then s
    else
      var s := if s.source == Some(Acd) then CloseFor(s, Acd) else s;
      s.(acd := NO_ACD.(id := Some(session)))
  }

  predicate StopHit(s: State, bar: Bar, distance: real)
    requires s.entry.Some?
  {
    if s.side > 0 then bar.low <= s.entry.value - distance else bar.high >= s.entry.value + distance
  }

  predicate TargetHit(s: State, bar: Bar, distance: real)
    requires s.entry.Some?
  {
    if s.side > 0 then bar.high >= s.entry.value + distance else bar.low <= s.entry.value - distance
  }

  function Distance(unit: real, multiple: real): real { unit * multiple }

  /** One bar of holding: stop, then target, then the holding limit. */
  function Hold(s: State, bar: Bar, source: Source, stop: real, target: real, limit: nat): State
    requires s.entry.Some?
  {
    var s := s.(held := s.held + 1);
    if StopHit(s, bar, stop) || TargetHit(s, bar, target) || s.held >= limit then CloseFor(s, source) else s
  }

  function Manage(c: Config, s: State, bar: Bar): State {
    if s.source == Some(Micro) then
      if s.entry.None? || s.atr.None? then s
      else Hold(s, bar, Micro, Distance(s.atr.value, c.microStop), Distance(s.atr.value, c.microTarget), c.microMaxHold)
    else if s.source == Some(Acd) then
      if s.entry.None? || s.width.None? then s
      else Hold(s, bar, Acd, Distance(s.width.value, c.acdStop), Distance(s.width.value, c.acdTarget), c.acdMaxHold)
    else s
  }

  predicate MicroBlocked(c: Config, s: State) {
    || s.microEntries >= c.microMaxEntries
    || (s.lastEntry.Some? && s.index - s.lastEntry.value < c.microMinGap)
    || (s.lastExit.Some? && s.index - s.lastExit.value < c.microCooldown)
  }

  function Width(a: AcdSession): Option<real> {
    if a.high.Some? && a.low.Some? then Some(a.high.value - a.low.value) else None
  }

  predicate RangeAllows(c: Config, s: State, bar: Bar) {
    !c.microNeedsRange ||
    (s.acd.complete && Width(s.acd).Some? && bar.close != 0.0
     && Width(s.acd).value / bar.close * 10000.0 >= c.microMinRange)
  }

  function TryMicro(c: Config, s: State, bar: Bar): State {
    if MicroBlocked(c, s) || !RangeAllows(c, s, bar) then s
    else if bar.signal.None? || (!bar.signal.value.up && !c.allowShort) then s
    else EnterFor(c, s, bar.signal.value.up, bar.close, Micro, Some(bar.signal.value.atr), None)
  }

  function TryAcd(c: Config, s: State, bar: Bar): State {
    var a := s.acd.(bars := s.acd.bars + 1);
    if a.bars <= c.rangeBars then
      s.(acd := a.(high := Some(if a.high.None? then bar.high else Max(a.high.value, bar.high)),
                   low := Some(if a.low.None? then bar.low else Min(a.low.value, bar.low)),
                   complete := a.complete || a.bars == c.rangeBars))
    else if !a.complete || a.bars > c.lastEntryBar || a.entries >= c.acdMaxEntries || Width(a).None? then s.(acd := a)
    else
      var margin := Width(a).value * c.buffer;
      var above, below := bar.close > a.high.value + margin, bar.close < a.low.value - margin;
      var up := above == c.breakout;
      if (!above && !below) || (!up && !c.allowShort) then s.(acd := a)
      else
        EnterFor(c, s, up, bar.close, Acd, None, Width(a)).(acd := a.(entries := a.entries + 1))
  }

  function Roll(s: State, bar: Bar): State {
    RollAcd(RollMicro(s.(lastTime := Some(bar.end)), bar.session), bar.session)
  }

  /** The microtrend entry has the first say, the ACD entry only when it declined. */
  function Decide(c: Config, s: State, bar: Bar): State {
    if s.side != 0 then s
    else
      var s' := TryMicro(c, s, bar);
      if s'.side == 0 then TryAcd(c, s', bar) else s'
  }

  function OnBar(c: Config, s: State, bar: Bar): State {
    if !bar.own || s.lastTime == Some(bar.end) then s else Decide(c, Manage(c, Roll(s, bar), bar), bar)
  }

  function Run(c: Config, bars: seq<Bar>): State {
    if bars == [] then START else OnBar(c, Run(c, bars[..|bars| - 1]), bars[|bars| - 1])
  }

  // ---------------------------------------------------------------- what every run keeps

  function Limit(c: Config, source: Source): nat { if source.Micro? then c.microMaxHold else c.acdMaxHold }

  /** One source owns the position, with that source's fields, and the holding limit is not reached. */
  ghost predicate OneOwner(c: Config, s: State) {
    && (s.side == 0 || s.side == 1 || s.side == -1)
    && (s.side == 0 <==> s.source.None?)
    && (s.source.None? ==> s.entry.None? && s.atr.None? && s.width.None? && s.held == 0 && s.entrySession.None?)
    && (s.source == Some(Micro) ==> s.entry.Some? && s.atr.Some? && s.width.None? && s.held < c.microMaxHold)
    && (s.source == Some(Acd) ==> s.entry.Some? && s.width.Some? && s.atr.None? && s.held < c.acdMaxHold)
  }

  /** Entries and closes alternate, and the position is open exactly after an entry of its side. */
  ghost predicate Discipline(c: Config, s: State) {
    && OneOwner(c, s) && Alternating(c.quantity, s.intents)
    && (s.side != 0 <==> |s.intents| % 2 == 1)
    && (s.side != 0 ==> s.intents[|s.intents| - 1] == Target(if s.side == 1 then c.quantity else -c.quantity))
  }

  lemma CloseKeeps(c: Config, s: State, source: Source)
    requires Discipline(c, s)
    ensures Discipline(c, CloseFor(s, source)) && CloseFor(s, source).side == 0
  {
  }

  lemma EnterKeeps(c: Config, s: State, up: bool, price: real, source: Source, atr: Option<real>, width: Option<real>)
    requires ValidConfig(c) && Discipline(c, s) && s.side == 0
    requires if source.Micro? then atr.Some? && width.None? else atr.None? && width.Some?
    ensures Discipline(c, EnterFor(c, s, up, price, source, atr, width))
  {
  }

  lemma ManageKeeps(c: Config, s: State, bar: Bar)
    requires Discipline(c, s)
    ensures Discipline(c, Manage(c, s, bar))
  {
    if s.source.Some? {
      var stop :=
        if s.source.value.Micro? then Distance(s.atr.value, c.microStop) else Distance(s.width.value, c.acdStop);
      var target :=
        if s.source.value.Micro? then Distance(s.atr.value, c.microTarget) else Distance(s.width.value, c.acdTarget);
      HoldKeeps(c, s, bar, s.source.value, stop, target);
      match s.source.value
      case Micro =>
      case Acd =>
    }
  }

  lemma HoldKeeps(c: Config, s: State, bar: Bar, source: Source, stop: real, target: real)
    requires Discipline(c, s) && s.source == Some(source)
    ensures Discipline(c, Hold(s, bar, source, stop, target, Limit(c, source)))
  {
  }

  lemma RollKeeps(c: Config, s: State, bar: Bar)
    requires Discipline(c, s)
    ensures Discipline(c, Roll(s, bar))
  {
    RollMicroKeeps(c, s.(lastTime := Some(bar.end)), bar.session);
    RollAcdKeeps(c, RollMicro(s.(lastTime := Some(bar.end)), bar.session), bar.session);
  }

  lemma RollMicroKeeps(c: Config, s: State, session: string)
    requires Discipline(c, s)
    ensures Discipline(c, RollMicro(s, session))
  {
    CloseKeeps(c, s, Micro);
  }

  lemma RollAcdKeeps(c: Config, s: State, session: string)
    requires Discipline(c, s)
    ensures Discipline(c, RollAcd(s, session))
  {
    CloseKeeps(c, s, Acd);
  }

  lemma TryMicroKeeps(c: Config, s: State, bar: Bar)
    requires ValidConfig(c) && Discipline(c, s) && s.side == 0
    ensures Discipline(c, TryMicro(c, s, bar))
    ensures TryMicro(c, s, bar).side == 0 ==> TryMicro(c, s, bar) == s
  {
    if bar.signal.Some? {
      EnterKeeps(c, s, bar.signal.value.up, bar.close, Micro, Some(bar.signal.value.atr), None);
    }
  }

  lemma TryAcdKeeps(c: Config, s: State, bar: Bar)
    requires ValidConfig(c) && Discipline(c, s) && s.side == 0
    ensures Discipline(c, TryAcd(c, s, bar))
  {
    var a := s.acd.(bars := s.acd.bars + 1);
    if Width(a).Some? {
      EnterKeeps(c, s, true, bar.close, Acd, None, Width(a));
      EnterKeeps(c, s, false, bar.close, Acd, None, Width(a));
    }
  }

  lemma OnBarKeeps(c: Config, s: State, bar: Bar)
    requires ValidConfig(c) && Discipline(c, s)
    ensures Discipline(c, OnBar(c, s, bar))
  {
    RollKeeps(c, s, bar);
    ManageKeeps(c, Roll(s, bar), bar);
    var m := Manage(c, Roll(s, bar), bar);
    if m.side == 0 {
      TryMicroKeeps(c, m, bar);
      TryAcdKeeps(c, m, bar);
    }
  }

  /** In every run one source owns the position, entries and closes alternate, and no position stays open
      once its holding count reaches the limit. */
  lemma {:induction false} RunKeepsDiscipline(c: Config, bars: seq<Bar>)
    requires ValidConfig(c)
    ensures Discipline(c, Run(c, bars))
  {
    if bars != [] {
      RunKeepsDiscipline(c, bars[..|bars| - 1]);
      OnBarKeeps(c, Run(c, bars[..|bars| - 1]), bars[|bars| - 1]);
    }
  }

  // ---------------------------------------------------------------- sessions, caps and spacing

  ghost predicate IsOpen(e: Event, source: Source) { e.Opened? && e.source == source }
  ghost predicate IsClose(e: Event, source: Source) { e.Closed? && e.source == source }

  /** Entries of a source in the session with ordinal `run`. */
  ghost function Entries(log: seq<Event>, source: Source, run: nat): nat {
    if log == [] then 0
    else
      var e := log[|log| - 1];
      Entries(log[..|log| - 1], source, run) + (if IsOpen(e, source) && e.run == run then 1 else 0)
  }

  /** Within a session, microtrend entries keep their distance from each other and from microtrend exits. */
  ghost predicate Spaced(c: Config, log: seq<Event>) {
    && (forall i, j ::
          0 <= i < j < |log| && IsOpen(log[i], Micro) && IsOpen(log[j], Micro) && log[i].run == log[j].run ==>
          log[j].index - log[i].index >= c.microMinGap)
    && (forall i, j ::
          0 <= i < j < |log| && IsClose(log[i], Micro) && IsOpen(log[j], Micro) && log[i].run == log[j].run ==>
          log[j].index - log[i].index >= c.microCooldown)
  }

  ghost predicate Capped(c: Config, log: seq<Event>) {
    forall run :: Entries(log, Micro, run) <= c.microMaxEntries && Entries(log, Acd, run) <= c.acdMaxEntries
  }

  /** The part of the state that entries and exits are counted by. */
  datatype Ledger = Ledger(log: seq<Event>, run: nat, index: nat, lastEntry: Option<nat>, lastExit: Option<nat>,
                           microEntries: nat, acdEntries: nat)

  ghost function LedgerOf(s: State): Ledger {
    Ledger(s.log, s.run, s.index, s.lastEntry, s.lastExit, s.microEntries, s.acd.entries)
  }

  /** The counters of the current session agree with the log. */
  ghost predicate Counted(l: Ledger) {
    && (forall i :: 0 <= i < |l.log| ==> l.log[i].run <= l.run)
    && (forall i :: 0 <= i < |l.log| && l.log[i].run == l.run && IsOpen(l.log[i], Micro) ==>
          l.lastEntry.Some? && l.log[i].index <= l.lastEntry.value)
    && (forall i :: 0 <= i < |l.log| && l.log[i].run == l.run && IsClose(l.log[i], Micro) ==>
          l.lastExit.Some? && l.log[i].index <= l.lastExit.value)
    && (l.lastEntry.Some? ==> l.lastEntry.value <= l.index) && (l.lastExit.Some? ==> l.lastExit.value <= l.index)
    && Entries(l.log, Micro, l.run) == l.microEntries && Entries(l.log, Acd, l.run) == l.acdEntries
  }

  ghost predicate History(c: Config, l: Ledger) { Spaced(c, l.log) && Capped(c, l.log) && Counted(l) }

  lemma {:induction false} NoEntriesAhead(log: seq<Event>, source: Source, run: nat)
    requires forall i :: 0 <= i < |log| ==> log[i].run < run
    ensures Entries(log, source, run) == 0
  {
    if log != [] {
      NoEntriesAhead(log[..|log| - 1], source, run);
    }
  }

  lemma EntriesAppend(log: seq<Event>, e: Event)
    ensures forall source, run :: Entries(log + [e], source, run)
                               == Entries(log, source, run) + (if IsOpen(e, source) && e.run == run then 1 else 0)
  {
    assert (log + [e])[..|log|] == log;
  }

  ghost function Closing(l: Ledger, source: Source): Ledger {
    l.(log := l.log + [Closed(source, l.run, l.index)], lastExit := if source.Micro? then Some(l.index) else l.lastExit)
  }

  ghost function MicroEntering(l: Ledger): Ledger {
    l.(log := l.log + [Opened(Micro, l.run, l.index)], lastEntry := Some(l.index), microEntries := l.microEntries + 1)
  }

  ghost function AcdEntering(l: Ledger): Ledger {
    l.(log := l.log + [Opened(Acd, l.run, l.index)], acdEntries := l.acdEntries + 1)
  }

  ghost function NewSession(l: Ledger): Ledger { Ledger(l.log, l.run + 1, 1, None, None, 0, 0) }

  lemma ClosingHistory(c: Config, l: Ledger, source: Source)
    requires History(c, l)
    ensures History(c, Closing(l, source))
  {
    EntriesAppend(l.log, Closed(source, l.run, l.index));
  }

  lemma MicroEnteringHistory(c: Config, l: Ledger)
    requires History(c, l) && l.microEntries < c.microMaxEntries
    requires l.lastEntry.Some? ==> l.index - l.lastEntry.value >= c.microMinGap
    requires l.lastExit.Some? ==> l.index - l.lastExit.value >= c.microCooldown
    ensures History(c, MicroEntering(l))
  {
    EntriesAppend(l.log, Opened(Micro, l.run, l.index));
  }

  lemma AcdEnteringHistory(c: Config, l: Ledger)
    requires History(c, l) && l.acdEntries < c.acdMaxEntries
    ensures History(c, AcdEntering(l))
  {
    EntriesAppend(l.log, Opened(Acd, l.run, l.index));
  }

  /** A new session starts with clean counters, which is what the log says of it. */
  lemma NewSessionHistory(c: Config, l: Ledger)
    requires History(c, l)
    ensures History(c, NewSession(l))
  {
    NoEntriesAhead(l.log, Micro, l.run + 1);
    NoEntriesAhead(l.log, Acd, l.run + 1);
  }

  /** Both halves are in the same session, and an open position was entered in it. */
  ghost predicate SameSession(s: State) {
    && s.session == s.acd.id && (s.side != 0 ==> s.entrySession == s.session)
    && (s.session.None? ==> s.acd == NO_ACD && s.side == 0 && LedgerOf(s) == LedgerOf(START))
  }

  /** What the rolls, the holding and the entries do to the ledger. */
  lemma RollLedger(c: Config, s: State, bar: Bar)
    requires Discipline(c, s) && SameSession(s)
    ensures var l, r := LedgerOf(s), LedgerOf(Roll(s, bar));
            if s.session.None? || s.session == Some(bar.session) then r == l.(index := l.index + 1)
            else
              || r == NewSession(l)
              || r == NewSession(Closing(l, Micro))
              || r == Closing(NewSession(l), Acd)
    ensures SameSession(Roll(s, bar)) && Roll(s, bar).session == Some(bar.session)
  {
    if s.source.Some? {
      match s.source.value
      case Micro =>
      case Acd =>
    }
  }

  lemma ManageLedger(c: Config, s: State, bar: Bar)
    requires Discipline(c, s)
    ensures var m := Manage(c, s, bar);
            && m.session == s.session && m.acd == s.acd
            && (m.side != 0 ==> m.entrySession == s.entrySession && s.side != 0)
            && (LedgerOf(m) == LedgerOf(s) || (s.source.Some? && LedgerOf(m) == Closing(LedgerOf(s), s.source.value)))
  {
    if s.source.Some? {
      match s.source.value
      case Micro =>
      case Acd =>
    }
  }

  lemma TryMicroLedger(c: Config, s: State, bar: Bar)
    ensures var m := TryMicro(c, s, bar);
            m == s || (LedgerOf(m) == MicroEntering(LedgerOf(s)) && !MicroBlocked(c, s)
                       && m.session == s.session && m.acd == s.acd && m.entrySession == s.session && m.side != 0)
  {
  }

  lemma TryAcdLedger(c: Config, s: State, bar: Bar)
    ensures var m := TryAcd(c, s, bar);
            && m.session == s.session && m.acd.id == s.acd.id
            && ((LedgerOf(m) == LedgerOf(s) && m.side == s.side)
                || (LedgerOf(m) == AcdEntering(LedgerOf(s)) && s.acd.entries < c.acdMaxEntries
                    && m.entrySession == s.session))
  {
  }

  lemma LaterHistory(c: Config, l: Ledger)
    requires History(c, l)
    ensures History(c, l.(index := l.index + 1))
  {
  }

  lemma RollHistory(c: Config, s: State, bar: Bar)
    requires Discipline(c, s) && History(c, LedgerOf(s)) && SameSession(s)
    ensures History(c, LedgerOf(Roll(s, bar)))
  {
    var l := LedgerOf(s);
    RollLedger(c, s, bar);
    LaterHistory(c, l);
    ClosingHistory(c, l, Micro);
    NewSessionHistory(c, l);
    NewSessionHistory(c, Closing(l, Micro));
    ClosingHistory(c, NewSession(l), Acd);
  }

  lemma DecideHistory(c: Config, s: State, bar: Bar)
    requires SameSession(s) && s.session.Some? && History(c, LedgerOf(s))
    ensures SameSession(Decide(c, s, bar)) && History(c, LedgerOf(Decide(c, s, bar)))
    ensures Decide(c, s, bar).session == s.session
  {
    if s.side == 0 {
      TryMicroLedger(c, s, bar);
      if !MicroBlocked(c, s) {
        MicroEnteringHistory(c, LedgerOf(s));
      }
      TryAcdLedger(c, s, bar);
      if s.acd.entries < c.acdMaxEntries {
        AcdEnteringHistory(c, LedgerOf(s));
      }
    }
  }

  lemma OnBarHistory(c: Config, s: State, bar: Bar)
    requires ValidConfig(c) && Discipline(c, s) && SameSession(s) && History(c, LedgerOf(s))
    ensures SameSession(OnBar(c, s, bar)) && History(c, LedgerOf(OnBar(c, s, bar)))
    ensures bar.own && s.lastTime != Some(bar.end) ==> OnBar(c, s, bar).session == Some(bar.session)
  {
    if bar.own && s.lastTime != Some(bar.end) {
      var r := Roll(s, bar);
      RollLedger(c, s, bar);
      RollHistory(c, s, bar);
      RollKeeps(c, s, bar);
      ManageLedger(c, r, bar);
      if r.source.Some? {
        ClosingHistory(c, LedgerOf(r), r.source.value);
      }
      DecideHistory(c, Manage(c, r, bar), bar);
    }
  }

  /** In every run: no position outlives its session, entries per source and session respect their caps, and
      microtrend entries of a session are spaced from each other and from microtrend exits. */
  lemma {:induction false} RunKeepsHistory(c: Config, bars: seq<Bar>)
    requires ValidConfig(c)
    ensures SameSession(Run(c, bars)) && History(c, LedgerOf(Run(c, bars)))
  {
    if bars != [] {
      var s, bar := Run(c, bars[..|bars| - 1]), bars[|bars| - 1];
      RunKeepsHistory(c, bars[..|bars| - 1]);
      RunKeepsDiscipline(c, bars[..|bars| - 1]);
      OnBarHistory(c, s, bar);
    }
  }

  // ---------------------------------------------------------------- the strategy object

  /** The strategy with its fields. The intents are what it sends out; the log, the session ordinal and the
      session of entry only record the run. */
  class MicrotrendAcdSwitch {
    const cfg: Config
    var session: Option<string>
    var index: nat
    var microEntries: nat
    var lastEntry: Option<nat>
    var lastExit: Option<nat>
    var side: int
    var source: Option<Source>
    var entry: Option<real>
    var width: Option<real>
    var atr: Option<real>
    var held: nat
    var lastTime: Option<int>
    var acd: AcdSession
    var intents: seq<Intent>
    ghost var log: seq<Event>
    ghost var run: nat
    ghost var entrySession: Option<string>

    ghost function View(): State
      reads this
    {
      State(session, index, microEntries, lastEntry, lastExit, side, source, entry, width, atr, held, lastTime, acd,
            intents, log, run, entrySession)
    }

    ghost predicate Valid()
      reads this
    {
      ValidConfig(cfg) && Discipline(cfg, View()) && SameSession(View()) && History(cfg, LedgerOf(View()))
    }

    constructor (cfg: Config)
      requires ValidConfig(cfg)
      ensures Valid() && this.cfg == cfg && View() == START
    {
      this.cfg := cfg;
      session, index, microEntries, lastEntry, lastExit := None, 0, 0, None, None;
      side, source, entry, width, atr, held := 0, None, None, None, None, 0;
      lastTime, acd, intents, log, run, entrySession := None, NO_ACD, [], [], 0, None;
      new;
      RunKeepsDiscipline(cfg, []);
      RunKeepsHistory(cfg, []);
    }

    /** Forgets the position. */
    method Flatten()
      modifies this`side, this`source, this`entry, this`atr, this`width, this`held, this`entrySession
      ensures side == 0 && source == None && entry == None && atr == None && width == None && held == 0
      ensures entrySession == None
    {
      side, source, entry, atr, width, held, entrySession := 0, None, None, None, None, 0, None;
    }

    method ClosePosition(from: Source)
      modifies this
      ensures View() == CloseFor(old(View()), from)
    {
      if side == 0 {
        return;
      }
      intents, log := intents + [Close], log + [Closed(from, run, index)];
      Flatten();
      if from.Micro? {
        lastExit := Some(index);
      }
    }

    method SetPosition(up: bool, price: real, from: Source, atr: Option<real>, width: Option<real>)
      modifies this`side, this`source, this`entry, this`atr, this`width, this`held, this`entrySession
      ensures side == (if up then 1 else -1) && source == Some(from) && entry == Some(price) && this.atr == atr
      ensures this.width == width && held == 0 && entrySession == session
    {
      side, source, entry := if up then 1 else -1, Some(from), Some(price);
      this.atr, this.width, held, entrySession := atr, width, 0, session;
    }

    method EnterPosition(up: bool, price: real, from: Source, atr: Option<real>, width: Option<real>)
      modifies this
      ensures View() == EnterFor(cfg, old(View()), up, price, from, atr, width)
    {
      SetPosition(up, price, from, atr, width);
      CountEntry(up, from);
    }

    method CountEntry(up: bool, from: Source)
      modifies this`microEntries, this`lastEntry, this`intents, this`log
      ensures intents == old(intents) + [Target(if up then cfg.quantity else -cfg.quantity)]
      ensures log == old(log) + [Opened(from, run, index)]
      ensures microEntries == old(microEntries) + (if from.Micro? then 1 else 0)
      ensures lastEntry == if from.Micro? then Some(index) else old(lastEntry)
    {
      if from.Micro? {
        microEntries, lastEntry := microEntries + 1, Some(index);
      }
      intents, log := intents + [Target(if up then cfg.quantity else -cfg.quantity)], log + [Opened(from, run, index)];
    }

    method RollMicroSession(id: string)
      modifies this
      ensures View() == RollMicro(old(View()), id)
    {
      if session.None? {
        session, index := Some(id), 1;
        return;
      }
      if session == Some(id) {
        index := index + 1;
        return;
      }
      if source == Some(Micro) {
        ClosePosition(Micro);
      }
      StartSession(id);
    }

    method StartSession(id: string)
      modifies this`session, this`index, this`microEntries, this`lastEntry, this`lastExit, this`run
      ensures session == Some(id) && index == 1 && microEntries == 0 && lastEntry == None && lastExit == None
      ensures run == old(run) + 1
    {
      session, index, microEntries, lastEntry, lastExit, run := Some(id), 1, 0, None, None, run + 1;
    }

    method RollAcdSession(id: string)
      modifies this
      ensures View() == RollAcd(old(View()), id)
    {
      if acd.id.None? {
        acd := NO_ACD.(id := Some(id));
        return;
      }
      if acd.id == Some(id) {
        return;
      }
      if source == Some(Acd) {
        ClosePosition(Acd);
      }
      acd := NO_ACD.(id := Some(id));
    }

    /** Stop and target by the side held, then the holding limit of whatever is still open. */
    method HoldPosition(bar: Bar, from: Source, stop: real, target: real, limit: nat)
      requires entry.Some? && source == Some(from) && side != 0
      modifies this
      ensures View() == Hold(old(View()), bar, from, stop, target, limit)
    {
      held := held + 1;
      if side > 0 {
        if bar.low <= entry.value - stop {
          ClosePosition(from);
        } else if bar.high >= entry.value + target {
          ClosePosition(from);
        }
      } else {
        if bar.high >= entry.value + stop {
          ClosePosition(from);
        } else if bar.low <= entry.value - target {
          ClosePosition(from);
        }
      }
      if source == Some(from) && held >= limit {
        ClosePosition(from);
      }
    }

    method ManagePosition(bar: Bar)
      requires OneOwner(cfg, View())
      modifies this
      ensures View() == Manage(cfg, old(View()), bar)
    {
      if source == Some(Micro) {
        if entry.Some? && atr.Some? {
          var stop, target := Distance(atr.value, cfg.microStop), Distance(atr.value, cfg.microTarget);
          HoldPosition(bar, Micro, stop, target, cfg.microMaxHold);
        }
      } else if source == Some(Acd) {
        if entry.Some? && width.Some? {
          var stop, target := Distance(width.value, cfg.acdStop), Distance(width.value, cfg.acdTarget);
          HoldPosition(bar, Acd, stop, target, cfg.acdMaxHold);
        }
      }
    }

    method EvaluateMicroEntry(bar: Bar)
      modifies this
      ensures View() == TryMicro(cfg, old(View()), bar)
    {
      if microEntries >= cfg.microMaxEntries {
        return;
      }
      if lastEntry.Some? && index - lastEntry.value < cfg.microMinGap {
        return;
      }
      if lastExit.Some? && index - lastExit.value < cfg.microCooldown {
        return;
      }
      if cfg.microNeedsRange {
        if !acd.complete || Width(acd).None? || bar.close == 0.0 {
          return;
        }
        if Width(acd).value / bar.close * 10000.0 < cfg.microMinRange {
          return;
        }
      }
      if bar.signal.None? || (!bar.signal.value.up && !cfg.allowShort) {
        return;
      }
      EnterPosition(bar.signal.value.up, bar.close, Micro, Some(bar.signal.value.atr), None);
    }

    method WidenOpeningRange(bar: Bar)
      modifies this`acd
      ensures var a := old(acd);
              acd == a.(high := Some(if a.high.None? then bar.high else Max(a.high.value, bar.high)),
                        low := Some(if a.low.None? then bar.low else Min(a.low.value, bar.low)))
    {
      acd := acd.(high := Some(if acd.high.None? then bar.high else Max(acd.high.value, bar.high)));
      acd := acd.(low := Some(if acd.low.None? then bar.low else Min(acd.low.value, bar.low)));
    }

    method EvaluateAcdEntry(bar: Bar)
      modifies this
      ensures View() == TryAcd(cfg, old(View()), bar)
    {
      acd := acd.(bars := acd.bars + 1);
      if acd.bars <= cfg.rangeBars {
        WidenOpeningRange(bar);
        if acd.bars == cfg.rangeBars {
          acd := acd.(complete := true);
        }
        return;
      }
      var width := Width(acd);
      if !acd.complete || acd.bars > cfg.lastEntryBar || acd.entries >= cfg.acdMaxEntries || width.None? {
        return;
      }
      var margin := width.value * cfg.buffer;
      var breakout := 0;
      if bar.close > acd.high.value + margin {
        breakout := 1;
      } else if bar.close < acd.low.value - margin {
        breakout := -1;
      }
      if breakout == 0 {
        return;
      }
      var direction := if cfg.breakout then breakout else -breakout;
      if direction < 0 && !cfg.allowShort {
        return;
      }
      EnterPosition(direction > 0, bar.close, Acd, None, width);
      acd := acd.(entries := acd.entries + 1);
    }

    /** One bar: roll both sessions, manage the position, then let each source in turn enter. */
    method Observe(bar: Bar)
      requires Valid()
      modifies this
      ensures View() == OnBar(cfg, old(View()), bar) && Valid()
    {
      OnBarKeeps(cfg, View(), bar);
      OnBarHistory(cfg, View(), bar);
      RollKeeps(cfg, View(), bar);
      if !bar.own || lastTime == Some(bar.end) {
        return;
      }
      lastTime := Some(bar.end);
      RollMicroSession(bar.session);
      RollAcdSession(bar.session);
      ManagePosition(bar);
      if side == 0 {
        EvaluateMicroEntry(bar);
      }
      if side == 0 {
        EvaluateAcdEntry(bar);
      }
    }
  }
}
