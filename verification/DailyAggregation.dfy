/** The streaming session aggregator of scripts/materialize_historical_timeframes.py:
    one running daily bar per instrument, emitted when the instrument's session changes
    and flushed at the end of the stream. */
module DailyAggregation {
  import opened Optional
  import opened Reals
  import opened Sequences
  import opened SessionRuns

  datatype Bar = Bar(instrument: string, session: Option<string>, start: int, end: int,
                     open: real, high: real, low: real, close: real, volume: real,
                     isComplete: bool, isPartial: bool)

  datatype Interval = Interval(start: int, end: int)

  /** The exchange calendar: the interval of each session id. */
  type SessionWindow = string -> Interval

  datatype DailyState = DailyState(instrument: string, session: string, start: int, end: int,
                                   open: real, high: real, low: real, close: real, volume: real,
                                   isComplete: bool, isPartial: bool)
  {
    static function FromBar(bar: Bar): DailyState
      requires bar.session.Some?
    {
      DailyState(bar.instrument, bar.session.value, bar.start, bar.end,
                 bar.open, bar.high, bar.low, bar.close, bar.volume, bar.isComplete, bar.isPartial)
    }

    /** The source raises for a bar of another instrument or session. */
    function Updated(bar: Bar): DailyState
      requires bar.instrument == instrument && bar.session == Some(session)
    {
      this.(end := bar.end, high := Max(high, bar.high), low := Min(low, bar.low), close := bar.close,
            volume := volume + bar.volume, isComplete := isComplete && bar.isComplete,
            isPartial := isPartial || bar.isPartial)
    }

    function ToBar(window: SessionWindow): Bar {
      var interval := window(session);
      var partial := isPartial || !isComplete || start != interval.start || end != interval.end;
      Bar(instrument, Some(session), interval.start, interval.end,
          open, high, low, close, volume, !partial, partial)
    }
  }

  // ---------------------------------------------------------------- the batch reading

  predicate OfInstrument(x: string, bar: Bar) { bar.instrument == x && bar.session.Some? }

  function SessionOf(bar: Bar): Option<string> { bar.session }

  /** The session-tagged bars of one instrument, in stream order. */
  ghost function Tagged(x: string, bars: seq<Bar>): (tagged: seq<Bar>)
    ensures forall i :: 0 <= i < |tagged| ==> OfInstrument(x, tagged[i])
  {
    if bars == [] then []
    else Tagged(x, bars[..|bars| - 1]) + (if OfInstrument(x, Last(bars)) then [Last(bars)] else [])
  }

  function HighPrice(bar: Bar): real { bar.high }

  function LowPrice(bar: Bar): real { bar.low }

  ghost function VolumeOf(bars: seq<Bar>): real {
    if bars == [] then 0.0 else VolumeOf(bars[..|bars| - 1]) + Last(bars).volume
  }

  ghost predicate AllComplete(run: seq<Bar>) { forall i :: 0 <= i < |run| ==> run[i].isComplete }

  ghost predicate AnyPartial(run: seq<Bar>) { exists i :: 0 <= i < |run| && run[i].isPartial }

  /** First open, highest high, lowest low, last close, summed volume of one session. */
  ghost function Summary(run: seq<Bar>): DailyState
    requires run != [] && run[0].session.Some?
  {
    DailyState(run[0].instrument, run[0].session.value, run[0].start, Last(run).end,
               run[0].open, HighestOf(HighPrice, run), LowestOf(LowPrice, run), Last(run).close, VolumeOf(run),
               AllComplete(run), AnyPartial(run))
  }

  /** The bar is the daily bar of the run: first open, highest high, lowest low, last close, summed volume, the
      calendar's interval, and partial unless the run is whole and made of whole bars. */
  ghost predicate IsDailyBar(window: SessionWindow, run: seq<Bar>, bar: Bar) {
    && run != [] && run[0].session.Some?
    && bar.instrument == run[0].instrument && bar.session == run[0].session
    && bar.open == run[0].open && bar.close == run[|run| - 1].close && bar.volume == VolumeOf(run)
    && (forall i :: 0 <= i < |run| ==> bar.low <= run[i].low && run[i].high <= bar.high)
    && (exists i :: 0 <= i < |run| && run[i].high == bar.high)
    && (exists i :: 0 <= i < |run| && run[i].low == bar.low)
    && var interval := window(run[0].session.value);
       && bar.start == interval.start && bar.end == interval.end
       && (bar.isPartial <==> || (exists i :: 0 <= i < |run| && (run[i].isPartial || !run[i].isComplete))
                              || run[0].start != interval.start || run[|run| - 1].end != interval.end)
       && bar.isComplete == !bar.isPartial
  }

  lemma SummaryIsDailyBar(window: SessionWindow, run: seq<Bar>)
    requires run != [] && run[0].session.Some?
    ensures IsDailyBar(window, run, Summary(run).ToBar(window))
  {
    forall i | 0 <= i < |run|
      ensures LowestOf(LowPrice, run) <= run[i].low && run[i].high <= HighestOf(HighPrice, run)
    {
      ColumnExtremes(HighPrice, run, i);
      ColumnExtremes(LowPrice, run, i);
    }
    var h, _ := ColumnAttains(HighPrice, run);
    var _, l := ColumnAttains(LowPrice, run);
    assert run[h].high == HighestOf(HighPrice, run) && run[l].low == LowestOf(LowPrice, run);
  }

  /** One daily bar per run, in order. */
  ghost predicate AreDailyBars(window: SessionWindow, runs: seq<seq<Bar>>, bars: seq<Bar>) {
    |bars| == |runs| && forall i :: 0 <= i < |runs| ==> IsDailyBar(window, runs[i], bars[i])
  }

  lemma {:induction false} SummaryBarsAreDaily(window: SessionWindow, x: string, runs: seq<seq<Bar>>)
    requires TaggedRuns(x, runs)
    ensures AreDailyBars(window, runs, SummaryBars(window, x, runs))
  {
    if runs != [] {
      SummaryBarsAreDaily(window, x, runs[..|runs| - 1]);
      SummaryIsDailyBar(window, Last(runs));
      DailyBarsAppend(window, runs[..|runs| - 1], SummaryBars(window, x, runs[..|runs| - 1]), Last(runs),
                      Summary(Last(runs)).ToBar(window));
      assert runs[..|runs| - 1] + [Last(runs)] == runs;
    }
  }

  lemma DailyBarsAppend(window: SessionWindow, runs: seq<seq<Bar>>, bars: seq<Bar>, run: seq<Bar>, bar: Bar)
    requires AreDailyBars(window, runs, bars) && IsDailyBar(window, run, bar)
    ensures AreDailyBars(window, runs + [run], bars + [bar])
  {
    forall i | 0 <= i < |runs + [run]| ensures IsDailyBar(window, (runs + [run])[i], (bars + [bar])[i]) {
      if i < |runs| {
        assert IsDailyBar(window, runs[i], bars[i]);
      }
    }
  }

  /** The daily bars of an instrument are those of its maximal session runs. */
  lemma DailyBarsAreDaily(window: SessionWindow, x: string, bars: seq<Bar>)
    ensures AreDailyBars(window, Runs(SessionOf, Tagged(x, bars)), DailyBars(window, x, bars))
  {
    OwnRuns(x, Tagged(x, bars));
    SummaryBarsAreDaily(window, x, Runs(SessionOf, Tagged(x, bars)));
  }

  ghost predicate TaggedRuns(x: string, runs: seq<seq<Bar>>) {
    forall i :: 0 <= i < |runs| ==> runs[i] != [] && OfInstrument(x, runs[i][0])
  }

  ghost function SummaryBars(window: SessionWindow, x: string, runs: seq<seq<Bar>>): seq<Bar>
    requires TaggedRuns(x, runs)
  {
    if runs == [] then []
    else SummaryBars(window, x, runs[..|runs| - 1]) + [Summary(Last(runs)).ToBar(window)]
  }

  ghost predicate Own(x: string, bars: seq<Bar>) {
    forall i :: 0 <= i < |bars| ==> OfInstrument(x, bars[i])
  }

  lemma {:induction false} OwnRuns(x: string, own: seq<Bar>)
    requires Own(x, own)
    ensures TaggedRuns(x, Runs(SessionOf, own))
  {
    if own != [] {
      OwnRuns(x, own[..|own| - 1]);
    }
  }

  /** What the daily file should hold for one instrument: a bar per maximal session run. */
  ghost function DailyBars(window: SessionWindow, x: string, bars: seq<Bar>): seq<Bar> {
    OwnRuns(x, Tagged(x, bars));
    SummaryBars(window, x, Runs(SessionOf, Tagged(x, bars)))
  }

  ghost function Project(x: string, bars: seq<Bar>): seq<Bar> {
    if bars == [] then []
    else Project(x, bars[..|bars| - 1]) + (if Last(bars).instrument == x then [Last(bars)] else [])
  }

  // ---------------------------------------------------------------- one instrument, one bar

  /** The running state of the bar's instrument, and the bar it completes, if any. */
  function Advance(window: SessionWindow, state: Option<DailyState>, bar: Bar): (r: (DailyState, seq<Bar>))
    requires bar.session.Some? && (state.Some? ==> state.value.instrument == bar.instrument)
    ensures r.0.instrument == bar.instrument
  {
    if state.None? then (DailyState.FromBar(bar), [])
    else if state.value.session != bar.session.value
    then (DailyState.FromBar(bar), [state.value.ToBar(window)])
    else (state.value.Updated(bar), [])
  }

  /** The running state summarizes the open run; what was emitted are the closed runs. */
  ghost predicate Tracks(window: SessionWindow, x: string, own: seq<Bar>, state: Option<DailyState>, out: seq<Bar>)
    requires Own(x, own)
  {
    OwnRuns(x, own);
    var runs := Runs(SessionOf, own);
    if runs == [] then state == None && out == []
    else state == Some(Summary(Last(runs))) && out == SummaryBars(window, x, runs[..|runs| - 1])
  }

  lemma FlagsGrow(run: seq<Bar>, bar: Bar)
    ensures AllComplete(run + [bar]) <==> AllComplete(run) && bar.isComplete
    ensures AnyPartial(run + [bar]) <==> AnyPartial(run) || bar.isPartial
  {
    var grown := run + [bar];
    assert grown[|run|] == bar && forall i :: 0 <= i < |run| ==> grown[i] == run[i];
  }

  lemma SummaryGrows(run: seq<Bar>, bar: Bar)
    requires run != [] && run[0].session.Some?
    requires bar.instrument == run[0].instrument && bar.session == run[0].session
    ensures Summary(run + [bar]) == Summary(run).Updated(bar)
  {
    ColumnExtremesConcat(HighPrice, run, [bar]);
    ColumnExtremesConcat(LowPrice, run, [bar]);
    ColumnExtremesOfOne(HighPrice, bar);
    ColumnExtremesOfOne(LowPrice, bar);
    FlagsGrow(run, bar);
    assert (run + [bar])[..|run|] == run;
  }

  lemma SingletonSummary(bar: Bar)
    requires bar.session.Some?
    ensures Summary([bar]) == DailyState.FromBar(bar)
  {
    assert [bar][..0] == [];
    assert VolumeOf([bar]) == bar.volume;
    ColumnExtremesOfOne(HighPrice, bar);
    ColumnExtremesOfOne(LowPrice, bar);
    assert AllComplete([bar]) <==> bar.isComplete;
    assert AnyPartial([bar]) <==> bar.isPartial by { assert [bar][0] == bar; }
  }

  lemma OpenRunGrows(window: SessionWindow, x: string, runs: seq<seq<Bar>>, bar: Bar)
    requires runs != [] && TaggedRuns(x, runs) && OfInstrument(x, bar) && Last(runs)[0].session == bar.session
    ensures var grown := runs[..|runs| - 1] + [Last(runs) + [bar]];
            && TaggedRuns(x, grown) && grown[..|grown| - 1] == runs[..|runs| - 1]
            && Summary(Last(grown)) == Summary(Last(runs)).Updated(bar)
  {
    SummaryGrows(Last(runs), bar);
  }

  lemma RunOpens(window: SessionWindow, x: string, runs: seq<seq<Bar>>, bar: Bar)
    requires TaggedRuns(x, runs) && OfInstrument(x, bar)
    ensures var longer := runs + [[bar]];
            && TaggedRuns(x, longer) && longer[..|longer| - 1] == runs
            && Summary(Last(longer)) == DailyState.FromBar(bar)
  {
    SingletonSummary(bar);
  }

  /** One more bar of the instrument keeps its state equal to the batch reading. */
  lemma AdvanceTracks(window: SessionWindow, x: string, own: seq<Bar>, state: Option<DailyState>,
                      out: seq<Bar>, bar: Bar)
    requires Own(x, own) && Tracks(window, x, own, state, out) && OfInstrument(x, bar)
    requires state.Some? ==> state.value.instrument == x
    ensures var (state', completed) := Advance(window, state, bar);
            Tracks(window, x, own + [bar], Some(state'), out + completed)
  {
    OwnRuns(x, own);
    var runs: seq<seq<Bar>> := Runs(SessionOf, own);
    RunsAppend(SessionOf, own, bar);
    if own != [] && Last(runs)[0].session == bar.session {
      OpenRunGrows(window, x, runs, bar);
      assert out + [] == out;
    } else {
      RunOpens(window, x, runs, bar);
      if own == [] {
        assert out + [] == out;
      } else {
        assert runs[..|runs| - 1] + [Last(runs)] == runs;
      }
    }
  }

  // ---------------------------------------------------------------- all instruments

  ghost predicate Keyed(states: map<string, DailyState>) {
    forall x :: x in states ==> states[x].instrument == x
  }

  function Lookup(states: map<string, DailyState>, x: string): Option<DailyState> {
    if x in states then Some(states[x]) else None
  }

  /** `_update_daily_aggregation_state` on the dictionary of running states. */
  function Step(window: SessionWindow, states: map<string, DailyState>, bar: Bar)
    : (r: (map<string, DailyState>, seq<Bar>))
    requires Keyed(states)
    ensures Keyed(r.0) && forall b :: b in r.1 ==> b.instrument == bar.instrument
  {
    if bar.session.None? then (states, [])
    else
      var (state, completed) := Advance(window, Lookup(states, bar.instrument), bar);
      (states[bar.instrument := state], completed)
  }

  /** Every instrument's state and emitted bars are those of its own stream alone. */
  ghost predicate TracksAll(window: SessionWindow, seen: seq<Bar>, states: map<string, DailyState>, emitted: seq<Bar>) {
    forall x :: Tracks(window, x, Tagged(x, seen), Lookup(states, x), Project(x, emitted))
  }

  lemma OwnStepTracks(window: SessionWindow, x: string, seen: seq<Bar>,
                      states: map<string, DailyState>, emitted: seq<Bar>, bar: Bar)
    requires Keyed(states) && Tracks(window, x, Tagged(x, seen), Lookup(states, x), Project(x, emitted))
    requires OfInstrument(x, bar)
    ensures var (states', completed) := Step(window, states, bar);
            Tracks(window, x, Tagged(x, seen + [bar]), Lookup(states', x), Project(x, emitted + completed))
  {
    var (state, completed) := Advance(window, Lookup(states, x), bar);
    assert (seen + [bar])[..|seen|] == seen;
    AdvanceTracks(window, x, Tagged(x, seen), Lookup(states, x), Project(x, emitted), bar);
    ProjectConcat(x, emitted, completed);
    ProjectOwn(x, completed);
  }

  lemma OtherStepTracks(window: SessionWindow, x: string, seen: seq<Bar>,
                        states: map<string, DailyState>, emitted: seq<Bar>, bar: Bar)
    requires Keyed(states) && !OfInstrument(x, bar)
    ensures var (states', completed) := Step(window, states, bar);
            && Tagged(x, seen + [bar]) == Tagged(x, seen)
            && Lookup(states', x) == Lookup(states, x)
            && Project(x, emitted + completed) == Project(x, emitted)
  {
    var (states', completed) := Step(window, states, bar);
    assert (seen + [bar])[..|seen|] == seen;
    assert Tagged(x, seen) + [] == Tagged(x, seen);
    ProjectConcat(x, emitted, completed);
    ProjectOthers(x, completed);
  }

  lemma {:induction false} ProjectOwn(x: string, bars: seq<Bar>)
    requires forall b :: b in bars ==> b.instrument == x
    ensures Project(x, bars) == bars
  {
    if bars != [] {
      ProjectOwn(x, bars[..|bars| - 1]);
      assert bars == bars[..|bars| - 1] + [Last(bars)];
    }
  }

  lemma {:induction false} ProjectOthers(x: string, bars: seq<Bar>)
    requires forall b :: b in bars ==> b.instrument != x
    ensures Project(x, bars) == []
  {
    if bars != [] {
      ProjectOthers(x, bars[..|bars| - 1]);
    }
  }

  lemma {:induction false} ProjectConcat(x: string, a: seq<Bar>, b: seq<Bar>)
    ensures Project(x, a + b) == Project(x, a) + Project(x, b)
  {
    if b == [] {
      assert a + b == a;
    } else {
      ProjectConcat(x, a, b[..|b| - 1]);
      assert (a + b)[..|a + b| - 1] == a + b[..|b| - 1];
    }
  }

  /** Every step of the scan keeps the whole dictionary equal to the batch reading. */
  lemma StepTracksAll(window: SessionWindow, seen: seq<Bar>, states: map<string, DailyState>, emitted: seq<Bar>,
                      bar: Bar)
    requires Keyed(states) && TracksAll(window, seen, states, emitted)
    ensures var (states', completed) := Step(window, states, bar);
            TracksAll(window, seen + [bar], states', emitted + completed)
  {
    var (states', completed) := Step(window, states, bar);
    forall x ensures Tracks(window, x, Tagged(x, seen + [bar]), Lookup(states', x), Project(x, emitted + completed)) {
      if OfInstrument(x, bar) {
        OwnStepTracks(window, x, seen, states, emitted, bar);
      } else {
        OtherStepTracks(window, x, seen, states, emitted, bar);
      }
    }
  }

  // ---------------------------------------------------------------- conservation of volume

  ghost function TaggedVolume(bars: seq<Bar>): real {
    if bars == [] then 0.0
    else TaggedVolume(bars[..|bars| - 1]) + (if Last(bars).session.Some? then Last(bars).volume else 0.0)
  }

  /** Volume held in the running states, in dictionary order. */
  ghost function HeldVolume(order: seq<string>, states: map<string, DailyState>): real
    requires forall x :: x in order ==> x in states
  {
    if order == [] then 0.0
    else HeldVolume(order[..|order| - 1], states) + states[Last(order)].volume
  }

  lemma {:induction false} HeldVolumeUpdate(order: seq<string>, states: map<string, DailyState>, x: string,
                                            state: DailyState)
    requires forall y :: y in order ==> y in states
    requires Distinct(order)
    ensures forall y :: y in order ==> y in states[x := state]
    ensures HeldVolume(order, states[x := state])
         == HeldVolume(order, states) + (if x in order then state.volume - states[x].volume else 0.0)
  {
    if order != [] {
      HeldVolumeUpdate(order[..|order| - 1], states, x, state);
      assert x in order <==> x == Last(order) || x in order[..|order| - 1];
    }
  }

  /** Dictionary order after the key is assigned. */
  function Ordered(order: seq<string>, x: string): seq<string> {
    if x in order then order else order + [x]
  }

  lemma HeldVolumeAppend(order: seq<string>, states: map<string, DailyState>, x: string)
    requires (forall y :: y in order ==> y in states) && x in states
    ensures HeldVolume(order + [x], states) == HeldVolume(order, states) + states[x].volume
  {
    assert (order + [x])[..|order|] == order && Last(order + [x]) == x;
  }

  lemma OrderedDictionary(order: seq<string>, states: map<string, DailyState>, x: string, state: DailyState)
    requires Dictionary(order, states)
    ensures Dictionary(Ordered(order, x), states[x := state])
    ensures HeldVolume(Ordered(order, x), states[x := state])
         == HeldVolume(order, states) + state.volume - (if x in states then states[x].volume else 0.0)
  {
    HeldVolumeUpdate(order, states, x, state);
    if x !in order {
      DistinctAppend(order, x);
      HeldVolumeAppend(order, states[x := state], x);
    }
  }

  lemma AdvanceVolume(window: SessionWindow, state: Option<DailyState>, bar: Bar)
    requires bar.session.Some? && (state.Some? ==> state.value.instrument == bar.instrument)
    ensures var (state', completed) := Advance(window, state, bar);
            VolumeOf(completed) + state'.volume == bar.volume + (if state.Some? then state.value.volume else 0.0)
  {
    var (state', completed) := Advance(window, state, bar);
    if completed != [] {
      assert completed[..0] == [];
    }
  }

  /** One step moves volume from the stream to the states and on to the output. */
  lemma StepConserves(window: SessionWindow, order: seq<string>, states: map<string, DailyState>, bar: Bar)
    requires Dictionary(order, states) && Keyed(states)
    ensures var (states', completed) := Step(window, states, bar);
            var order' := if bar.session.None? then order else Ordered(order, bar.instrument);
            && Dictionary(order', states')
            && VolumeOf(completed) + HeldVolume(order', states')
            == HeldVolume(order, states) + (if bar.session.Some? then bar.volume else 0.0)
  {
    if bar.session.Some? {
      AdvanceVolume(window, Lookup(states, bar.instrument), bar);
      OrderedDictionary(order, states, bar.instrument, Advance(window, Lookup(states, bar.instrument), bar).0);
    }
  }

  // ---------------------------------------------------------------- the aggregator

  /** The states and the output are those of everything seen, and no volume is lost between them. */
  ghost predicate Consistent(window: SessionWindow, seen: seq<Bar>, order: seq<string>, states: map<string, DailyState>,
                             emitted: seq<Bar>) {
    && Dictionary(order, states) && Keyed(states)
    && TracksAll(window, seen, states, emitted)
    && VolumeOf(emitted) + HeldVolume(order, states) == TaggedVolume(seen)
  }

  lemma StepConsistent(window: SessionWindow, seen: seq<Bar>, order: seq<string>, states: map<string, DailyState>,
                       emitted: seq<Bar>, bar: Bar,
                       order': seq<string>, states': map<string, DailyState>, completed: seq<Bar>)
    requires Consistent(window, seen, order, states, emitted)
    requires (states', completed) == Step(window, states, bar)
    requires order' == if bar.session.None? then order else Ordered(order, bar.instrument)
    ensures Consistent(window, seen + [bar], order', states', emitted + completed)
    ensures CompletesRun(window, seen, bar, completed)
  {
    CompletedIsDaily(window, seen, states, emitted, bar);
    StepTracksAll(window, seen, states, emitted, bar);
    StepConserves(window, order, states, bar);
    assert (seen + [bar])[..|seen|] == seen;
    VolumeConcat(emitted, completed);
  }

  /** The dictionary of running states, with its insertion order, as the scan updates it. */
  class DailyAggregator {
    const window: SessionWindow
    var order: seq<string>
    var states: map<string, DailyState>
    ghost var seen: seq<Bar>
    ghost var emitted: seq<Bar>

    ghost predicate Valid()
      reads this
    {
      Consistent(window, seen, order, states, emitted)
    }

    constructor (window: SessionWindow)
      ensures Valid() && seen == [] && emitted == [] && this.window == window
    {
      this.window := window;
      order, states, seen, emitted := [], map[], [], [];
    }

    method Update(bar: Bar) returns (completed: seq<Bar>)
      requires Valid()
      modifies this
      ensures Valid() && seen == old(seen) + [bar] && emitted == old(emitted) + completed
      ensures (states, completed) == Step(window, old(states), bar)
      ensures CompletesRun(window, old(seen), bar, completed)
    {
      ghost var was, before := order, states;
      completed := UpdateStates(bar);
      StepConsistent(window, seen, was, before, emitted, bar, order, states, completed);
      seen, emitted := seen + [bar], emitted + completed;
    }

    /** One round of the scan: the update, with only the bookkeeping promised. */
    method Feed(bar: Bar) returns (completed: seq<Bar>)
      requires Valid()
      modifies this
      ensures Valid() && seen == old(seen) + [bar] && emitted == old(emitted) + completed
    {
      completed := Update(bar);
    }

    /** `_update_daily_aggregation_state` itself. */
    method UpdateStates(bar: Bar) returns (completed: seq<Bar>)
      requires Keyed(states)
      modifies this`order, this`states
      ensures (states, completed) == Step(window, old(states), bar)
      ensures order == if bar.session.None? then old(order) else Ordered(old(order), bar.instrument)
    {
      completed := [];
      if bar.session.Some? {
        var opens := bar.instrument !in states;
        if !opens && states[bar.instrument].session != bar.session.value {
          completed := [states[bar.instrument].ToBar(window)];
          opens := true;
        }
        order := Ordered(order, bar.instrument);
        states := states[bar.instrument :=
          if opens then DailyState.FromBar(bar) else states[bar.instrument].Updated(bar)];
      }
    }

    /** The end-of-stream flush: one bar per running state, in dictionary order. */
    method Flush() returns (bars: seq<Bar>)
      requires Valid()
      ensures forall x :: Project(x, emitted + bars) == DailyBars(window, x, seen)
      ensures forall x :: AreDailyBars(window, Runs(SessionOf, Tagged(x, seen)), Project(x, emitted + bars))
      ensures VolumeOf(emitted + bars) == TaggedVolume(seen)
    {
      bars := [];
      for i := 0 to |order|
        invariant bars == Flushed(window, order[..i], states)
      {
        assert order[..i + 1][..i] == order[..i];
        bars := bars + [states[order[i]].ToBar(window)];
      }
      assert order[..|order|] == order;
      VolumeConcat(emitted, bars);
      FlushedVolume(window, order, states);
      forall x ensures Project(x, emitted + bars) == DailyBars(window, x, seen) {
        FlushCompletes(window, x, seen, order, states, emitted);
      }
      forall x ensures AreDailyBars(window, Runs(SessionOf, Tagged(x, seen)), Project(x, emitted + bars)) {
        DailyBarsAreDaily(window, x, seen);
        assert Project(x, emitted + bars) == DailyBars(window, x, seen);
      }
    }
  }

  ghost predicate Dictionary(order: seq<string>, states: map<string, DailyState>) {
    && (forall x :: x in states <==> x in order)
    && Distinct(order)
  }

  ghost function Flushed(window: SessionWindow, order: seq<string>, states: map<string, DailyState>): seq<Bar>
    requires forall x :: x in order ==> x in states
  {
    if order == [] then []
    else Flushed(window, order[..|order| - 1], states) + [states[Last(order)].ToBar(window)]
  }

  lemma AppendBar(x: string, bars: seq<Bar>, bar: Bar)
    ensures VolumeOf(bars + [bar]) == VolumeOf(bars) + bar.volume
    ensures Project(x, bars + [bar]) == Project(x, bars) + (if bar.instrument == x then [bar] else [])
  {
    assert (bars + [bar])[..|bars|] == bars;
  }

  lemma {:induction false} FlushedVolume(window: SessionWindow, order: seq<string>, states: map<string, DailyState>)
    requires forall x :: x in order ==> x in states
    ensures VolumeOf(Flushed(window, order, states)) == HeldVolume(order, states)
  {
    if order != [] {
      FlushedVolume(window, order[..|order| - 1], states);
      AppendBar("", Flushed(window, order[..|order| - 1], states), states[Last(order)].ToBar(window));
    }
  }

  lemma FrontOfDistinct(order: seq<string>, x: string)
    requires order != [] && Distinct(order)
    ensures x in order <==> x in order[..|order| - 1] || x == Last(order)
    ensures Last(order) !in order[..|order| - 1]
  {
    assert order == order[..|order| - 1] + [Last(order)];
  }

  lemma {:induction false} FlushedProjection(window: SessionWindow, x: string, order: seq<string>,
                                             states: map<string, DailyState>)
    requires (forall y :: y in order ==> y in states) && Keyed(states)
    requires Distinct(order)
    ensures Project(x, Flushed(window, order, states)) == if x in order then [states[x].ToBar(window)] else []
  {
    if order != [] {
      var init, y := order[..|order| - 1], Last(order);
      FrontOfDistinct(order, x);
      FlushedProjection(window, x, init, states);
      var bar := states[y].ToBar(window);
      assert bar.instrument == y;
      AppendBar(x, Flushed(window, init, states), bar);
    }
  }

  /** What was emitted, then the flush, is one summary bar per maximal run. */
  lemma FlushCompletes(window: SessionWindow, x: string, seen: seq<Bar>, order: seq<string>,
                       states: map<string, DailyState>, emitted: seq<Bar>)
    requires Dictionary(order, states) && Keyed(states) && TracksAll(window, seen, states, emitted)
    ensures Project(x, emitted + Flushed(window, order, states)) == DailyBars(window, x, seen)
  {
    FlushedProjection(window, x, order, states);
    ProjectConcat(x, emitted, Flushed(window, order, states));
    assert Tracks(window, x, Tagged(x, seen), Lookup(states, x), Project(x, emitted));
  }

  /** A bar completes the running session of its instrument exactly when it belongs to another one. */
  ghost predicate CompletesRun(window: SessionWindow, seen: seq<Bar>, bar: Bar, completed: seq<Bar>) {
    var runs := Runs(SessionOf, Tagged(bar.instrument, seen));
    if bar.session.Some? && runs != [] && Last(runs)[0].session != bar.session
    then |completed| == 1 && IsDailyBar(window, Last(runs), completed[0]) else completed == []
  }

  lemma CompletedIsDaily(window: SessionWindow, seen: seq<Bar>, states: map<string, DailyState>, emitted: seq<Bar>,
                         bar: Bar)
    requires Keyed(states) && TracksAll(window, seen, states, emitted)
    ensures CompletesRun(window, seen, bar, Step(window, states, bar).1)
  {
    var x := bar.instrument;
    var runs: seq<seq<Bar>> := Runs(SessionOf, Tagged(x, seen));
    assert Tracks(window, x, Tagged(x, seen), Lookup(states, x), Project(x, emitted));
    OwnRuns(x, Tagged(x, seen));
    if runs != [] {
      SummaryIsDailyBar(window, Last(runs));
    }
  }

  lemma {:induction false} VolumeConcat(a: seq<Bar>, b: seq<Bar>)
    ensures VolumeOf(a + b) == VolumeOf(a) + VolumeOf(b)
  {
    if b == [] {
      assert a + b == a;
    } else {
      VolumeConcat(a, b[..|b| - 1]);
      assert (a + b)[..|a + b| - 1] == a + b[..|b| - 1];
    }
  }

  /** The scan over the stream, with what it writes on the way. */
  method Scan(aggregator: DailyAggregator, bars: seq<Bar>) returns (emitted: seq<Bar>)
    requires aggregator.Valid() && aggregator.seen == [] && aggregator.emitted == []
    modifies aggregator
    ensures aggregator.Valid() && aggregator.seen == bars && aggregator.emitted == emitted
  {
    emitted := [];
    for i := 0 to |bars|
      invariant aggregator.Valid() && aggregator.seen == bars[..i] && aggregator.emitted == emitted
    {
      var completed := aggregator.Feed(bars[i]);
      emitted := emitted + completed;
      assert bars[..i + 1] == bars[..i] + [bars[i]];
    }
    assert bars[..|bars|] == bars;
  }

  /** The session branch of the materialization scan. */
  method MaterializeDaily(window: SessionWindow, bars: seq<Bar>) returns (out: seq<Bar>)
    ensures forall x :: Project(x, out) == DailyBars(window, x, bars)
    ensures forall x :: AreDailyBars(window, Runs(SessionOf, Tagged(x, bars)), Project(x, out))
    ensures VolumeOf(out) == TaggedVolume(bars)
  {
    var aggregator := new DailyAggregator(window);
    var emitted := Scan(aggregator, bars);
    var flushed := aggregator.Flush();
    out := emitted + flushed;
  }

  lemma {:induction false} TaggedConcat(x: string, a: seq<Bar>, b: seq<Bar>)
    ensures Tagged(x, a + b) == Tagged(x, a) + Tagged(x, b)
  {
    if b == [] {
      assert a + b == a;
    } else {
      TaggedConcat(x, a, b[..|b| - 1]);
      assert (a + b)[..|a + b| - 1] == a + b[..|b| - 1];
    }
  }

  /** A bar of another instrument, or outside every session, leaves no trace wherever it falls. */
  lemma ForeignBarHasNoEffect(window: SessionWindow, x: string, a: seq<Bar>, bar: Bar, b: seq<Bar>)
    requires !OfInstrument(x, bar)
    ensures DailyBars(window, x, a + [bar] + b) == DailyBars(window, x, a + b)
  {
    TaggedConcat(x, a + [bar], b);
    TaggedConcat(x, a, b);
    assert (a + [bar])[..|a|] == a;
    assert Tagged(x, a + [bar]) == Tagged(x, a) + [] == Tagged(x, a);
  }
}
