/** The sequence-number protocol of frontend/src/ws/stream-client.ts: live events are
    delivered in order, events that arrive early wait in a buffer and trigger a replay
    request, replayed events are applied unconditionally, and a resync starts afresh. */
module StreamProtocol {
  import opened Optional

  const RESYNC := "stream.resync_required"

  /** A well-formed envelope; its payload and time stamp are carried, never read. */
  datatype Event = Event(kind: string, sequence: int, replayed: bool, content: string)

  /** An `onMessage` call, with the value of `lastSequence` just before it. */
  datatype Delivery = Delivery(event: Event, previous: Option<int>)

  /** The client's fields; `requests` are the replay requests sent and `log` the deliveries. */
  datatype State = State(last: Option<int>, pending: map<int, Event>, open: bool, requests: seq<int>,
                         log: seq<Delivery>)

  /** `Message(None)` is a frame that does not parse as an envelope. */
  datatype Input = Message(frame: Option<Event>) | SetLast(sequence: int) | Opened | Closed

  const INITIAL := State(None, map[], false, [], [])

  /** Buffered events are filed under their own numbers and none is a replay. */
  ghost predicate Keyed(pending: map<int, Event>) {
    forall n :: n in pending ==> pending[n].sequence == n && !pending[n].replayed
  }

  function Request(s: State): State {
    if s.open then s.(requests := s.requests + [if s.last.Some? then s.last.value else 0]) else s
  }

  function Deliver(s: State, e: Event): State {
    s.(last := Some(e.sequence), pending := s.pending - {e.sequence}, log := s.log + [Delivery(e, s.last)])
  }

  predicate Ready(s: State) { s.last.Some? && s.last.value + 1 in s.pending }

  function Flush(s: State): (r: State)
    requires Keyed(s.pending)
    ensures Keyed(r.pending) && !Ready(r)
    decreases |s.pending|
  {
    if !Ready(s) then s
    else
      var next := s.last.value + 1;
      RemoveShrinks(s.pending, next);
      Flush(Deliver(s, s.pending[next]))
  }

  lemma RemoveShrinks(m: map<int, Event>, k: int)
    requires k in m
    ensures |m - {k}| < |m|
  {
    assert (m - {k}).Keys == m.Keys - {k};
    assert |m.Keys - {k}| == |m.Keys| - 1;
  }

  lemma RemoveNeverGrows(m: map<int, Event>, k: int)
    ensures |m - {k}| <= |m|
  {
    if k in m {
      RemoveShrinks(m, k);
    } else {
      assert m - {k} == m;
    }
  }

  function Handle(s: State, e: Event): (r: State)
    requires Keyed(s.pending)
    ensures Keyed(r.pending)
  {
    if e.kind == RESYNC then
      s.(last := None, pending := map[])
    else if s.last.Some? && !e.replayed && e.sequence < s.last.value + 1 then s
    else if s.last.Some? && !e.replayed && e.sequence > s.last.value + 1 then
      Request(s.(pending := s.pending[e.sequence := e]))
    else if e.replayed then Flush(Deliver(s, e))
    else Deliver(s, e)
  }

  function Step(s: State, input: Input): (r: State)
    requires Keyed(s.pending)
    ensures Keyed(r.pending)
  {
    match input
    case Message(None) => s
    case Message(Some(e)) => Handle(s, e)
    case SetLast(n) => Flush(s.(last := Some(n)))
    case Opened => Request(s.(open := true))
    case Closed => s.(open := false)
  }

  function Run(inputs: seq<Input>): (r: State)
    ensures Keyed(r.pending)
  {
    if inputs == [] then INITIAL else Step(Run(inputs[..|inputs| - 1]), inputs[|inputs| - 1])
  }

  // ---------------------------------------------------------------- what every run keeps

  /** A delivery not marked replayed carries the next number, unless there was none yet. */
  ghost predicate InOrder(d: Delivery) {
    !d.event.replayed && d.previous.Some? ==> d.event.sequence == d.previous.value + 1
  }

  /** The sequence numbers delivered. */
  ghost function Numbers(log: seq<Delivery>): set<int> {
    if log == [] then {} else Numbers(log[..|log| - 1]) + {log[|log| - 1].event.sequence}
  }

  ghost predicate IsResync(input: Input) { input.Message? && input.frame.Some? && input.frame.value.kind == RESYNC }

  /** The input is a live event ahead of the expected number. */
  ghost predicate IsEarly(last: Option<int>, input: Input) {
    && input.Message? && input.frame.Some? && input.frame.value.kind != RESYNC
    && !input.frame.value.replayed && last.Some? && input.frame.value.sequence > last.value + 1
  }

  /** How many events had been delivered when the last resync arrived. */
  ghost function ResyncAt(inputs: seq<Input>): nat {
    if inputs == [] then 0
    else
      var init, input := inputs[..|inputs| - 1], inputs[|inputs| - 1];
      if IsResync(input) then |Run(init).log| else ResyncAt(init)
  }

  /** How many had been delivered when the last resync arrived or the position was last set. */
  ghost function SegmentAt(inputs: seq<Input>): nat {
    if inputs == [] then 0
    else
      var init, input := inputs[..|inputs| - 1], inputs[|inputs| - 1];
      if IsResync(input) || input.SetLast? then |Run(init).log| else SegmentAt(init)
  }

  /** The early events since the last resync, by number; a later one with the same number replaces an earlier one. */
  ghost function Early(inputs: seq<Input>): map<int, Event> {
    if inputs == [] then map[]
    else
      var init, input := inputs[..|inputs| - 1], inputs[|inputs| - 1];
      if IsResync(input) then map[]
      else if IsEarly(Run(init).last, input) then Early(init)[input.frame.value.sequence := input.frame.value]
      else Early(init)
  }

  /** Live deliveries are in order, and from `segment` on each follows on from the one before. */
  ghost predicate Orderly(s: State, segment: nat) {
    && Keyed(s.pending) && segment <= |s.log|
    && (forall i :: 0 <= i < |s.log| ==> InOrder(s.log[i]))
    && (forall i :: segment < i < |s.log| ==> s.log[i].previous == Some(s.log[i - 1].event.sequence))
    && (segment < |s.log| ==> s.last == Some(s.log[|s.log| - 1].event.sequence))
  }

  /** Each early event is still buffered or its number was delivered since, and nothing else is buffered. */
  ghost predicate NothingLost(s: State, early: map<int, Event>, since: nat) {
    && Keyed(s.pending) && since <= |s.log|
    && early.Keys <= s.pending.Keys + Numbers(s.log[since..])
    && (forall n :: n in s.pending ==> n in early && early[n] == s.pending[n])
  }

  lemma NumbersAppend(log: seq<Delivery>, d: Delivery)
    ensures Numbers(log + [d]) == Numbers(log) + {d.event.sequence}
  {
    assert (log + [d])[..|log|] == log;
  }

  lemma DeliverOrderly(s: State, e: Event, segment: nat)
    requires Orderly(s, segment) && (!e.replayed && s.last.Some? ==> e.sequence == s.last.value + 1)
    ensures Orderly(Deliver(s, e), segment)
  {
  }

  lemma DeliverLosesNothing(s: State, e: Event, early: map<int, Event>, since: nat)
    requires NothingLost(s, early, since)
    ensures NothingLost(Deliver(s, e), early, since)
  {
    var d := Delivery(e, s.last);
    assert (s.log + [d])[since..] == s.log[since..] + [d];
    NumbersAppend(s.log[since..], d);
  }

  /** What a flush changes, and what it leaves alone. */
  ghost predicate Flushed(s: State, r: State) {
    && r.open == s.open && r.requests == s.requests
    && s.log <= r.log && s.last.Some? && r.last.Some? && s.last.value <= r.last.value
    && r.pending.Keys <= s.pending.Keys
    && (forall n :: n in s.pending ==> (n in r.pending <==> !(s.last.value < n <= r.last.value)))
    && (forall n :: s.last.value < n <= r.last.value ==> n in s.pending)
  }

  lemma {:induction false} FlushOrderly(s: State, segment: nat)
    requires Orderly(s, segment)
    ensures Orderly(Flush(s), segment)
    decreases |s.pending|
  {
    if Ready(s) {
      var next := s.last.value + 1;
      RemoveShrinks(s.pending, next);
      FlushOrderly(Deliver(s, s.pending[next]), segment);
    }
  }

  lemma {:induction false} FlushLosesNothing(s: State, early: map<int, Event>, since: nat)
    requires NothingLost(s, early, since)
    ensures NothingLost(Flush(s), early, since)
    decreases |s.pending|
  {
    if Ready(s) {
      var next := s.last.value + 1;
      RemoveShrinks(s.pending, next);
      DeliverLosesNothing(s, s.pending[next], early, since);
      FlushLosesNothing(Deliver(s, s.pending[next]), early, since);
    }
  }

  lemma {:induction false} FlushEffect(s: State)
    requires Keyed(s.pending) && s.last.Some?
    ensures Flushed(s, Flush(s))
    decreases |s.pending|
  {
    if Ready(s) {
      var next := s.last.value + 1;
      var s' := Deliver(s, s.pending[next]);
      RemoveShrinks(s.pending, next);
      FlushEffect(s');
      FlushedStep(s, s', Flush(s'));
    }
  }

  lemma FlushedStep(s: State, s': State, r: State)
    requires Keyed(s.pending) && Ready(s) && s' == Deliver(s, s.pending[s.last.value + 1]) && Flushed(s', r)
    ensures Flushed(s, r)
  {
    var next := s.last.value + 1;
    assert s'.last == Some(next) && s.log <= s'.log;
    assert s'.pending == s.pending - {next};
    forall n | n in s.pending ensures n in r.pending <==> !(s.last.value < n <= r.last.value) {
      assert n == next || n in s'.pending;
    }
    forall n | s.last.value < n <= r.last.value ensures n in s.pending {
      assert n == next || n in s'.pending;
    }
  }

  lemma StepOrderly(s: State, input: Input, segment: nat)
    requires Orderly(s, segment)
    ensures Orderly(Step(s, input), if IsResync(input) || input.SetLast? then |s.log| else segment)
  {
    match input
    case Message(None) =>
    case Message(Some(e)) =>
      if e.kind != RESYNC && (s.last.None? || e.replayed || e.sequence == s.last.value + 1) {
        DeliverOrderly(s, e, segment);
        FlushOrderly(Deliver(s, e), segment);
      }
    case SetLast(n) =>
      FlushOrderly(s.(last := Some(n)), |s.log|);
    case Opened =>
    case Closed =>
  }

  lemma StepLosesNothing(s: State, input: Input, early: map<int, Event>, since: nat)
    requires NothingLost(s, early, since)
    ensures if IsResync(input) then NothingLost(Step(s, input), map[], |s.log|)
            else if IsEarly(s.last, input)
            then NothingLost(Step(s, input), early[input.frame.value.sequence := input.frame.value], since)
            else NothingLost(Step(s, input), early, since)
  {
    match input
    case Message(None) =>
    case Message(Some(e)) =>
      if e.kind != RESYNC && !IsEarly(s.last, input) {
        DeliverLosesNothing(s, e, early, since);
        FlushLosesNothing(Deliver(s, e), early, since);
      }
    case SetLast(n) =>
      FlushLosesNothing(s.(last := Some(n)), early, since);
    case Opened =>
    case Closed =>
  }

  /** In every run a delivery not marked replayed carries the number after `lastSequence`. */
  lemma {:induction false} RunOrderly(inputs: seq<Input>)
    ensures Orderly(Run(inputs), SegmentAt(inputs))
  {
    if inputs != [] {
      RunOrderly(inputs[..|inputs| - 1]);
      StepOrderly(Run(inputs[..|inputs| - 1]), inputs[|inputs| - 1], SegmentAt(inputs[..|inputs| - 1]));
    }
  }

  /** In every run each live event that arrived early since the last resync is still buffered, or its number was
      delivered since; and what is buffered under a number is the last event that arrived early with it. */
  lemma {:induction false} RunLosesNothing(inputs: seq<Input>)
    ensures NothingLost(Run(inputs), Early(inputs), ResyncAt(inputs))
  {
    if inputs != [] {
      var init := inputs[..|inputs| - 1];
      RunLosesNothing(init);
      StepLosesNothing(Run(init), inputs[|inputs| - 1], Early(init), ResyncAt(init));
    }
  }

  // ---------------------------------------------------------------- what each input does

  /** A message is delivered exactly when it is well formed, no resync, and replayed, expected, or the first. */
  lemma DeliveredIff(s: State, e: Event)
    requires Keyed(s.pending)
    ensures var log := Handle(s, e).log;
            if e.kind != RESYNC && (s.last.None? || e.replayed || e.sequence == s.last.value + 1)
            then |log| > |s.log| && s.log <= log && log[|s.log|] == Delivery(e, s.last) else log == s.log
  {
    if e.replayed {
      FlushEffect(Deliver(s, e));
    }
  }

  /** A replay is asked for, from `lastSequence` or 0, exactly on opening and on an early event while open. */
  lemma RequestedIff(s: State, input: Input)
    requires Keyed(s.pending)
    ensures var last := match s.last case None => 0 case Some(n) => n;
            Step(s, input).requests
            == if input.Opened? || (s.open && IsEarly(s.last, input)) then s.requests + [last] else s.requests
    ensures Step(s, input).open <==> input.Opened? || (s.open && !input.Closed?)
  {
    match input
    case Message(None) =>
    case Message(Some(e)) =>
      if e.kind != RESYNC && !IsEarly(s.last, input) {
        FlushEffect(Deliver(s, e));
      }
    case SetLast(n) => FlushEffect(s.(last := Some(n)));
    case Opened =>
    case Closed =>
  }

  /** A resync forgets the position and the buffer; setting the position delivers what follows on from it. */
  lemma ResyncAndReset(s: State, e: Event, n: int)
    requires Keyed(s.pending) && e.kind == RESYNC
    ensures Handle(s, e).last == None && Handle(s, e).pending == map[] && Handle(s, e).log == s.log
    ensures Flushed(s.(last := Some(n)), Step(s, SetLast(n))) && !Ready(Step(s, SetLast(n)))
  {
    FlushEffect(s.(last := Some(n)));
  }

  // ---------------------------------------------------------------- gap-free delivery

  ghost predicate GapFree(numbers: set<int>) {
    forall a, b, x :: a in numbers && b in numbers && a <= x <= b ==> x in numbers
  }

  /** A replayed number that touches or overlaps the range delivered before it. */
  ghost predicate Adjacent(numbers: set<int>, n: int) {
    numbers == {} || n in numbers || n - 1 in numbers || n + 1 in numbers
  }

  /** Deliveries that follow on from one another, as within a segment. */
  ghost predicate Chained(log: seq<Delivery>) {
    && (forall i :: 0 <= i < |log| ==> InOrder(log[i]))
    && (forall i :: 0 < i < |log| ==> log[i].previous == Some(log[i - 1].event.sequence))
  }

  /** Every prefix of the deliveries covers an interval of numbers. */
  ghost predicate AlwaysGapFree(log: seq<Delivery>) {
    GapFree(Numbers(log)) && (log != [] ==> AlwaysGapFree(log[..|log| - 1]))
  }

  /** Every replayed delivery is adjacent to the numbers delivered before it. */
  ghost predicate ReplaysAdjacent(log: seq<Delivery>) {
    log != [] ==>
      var init, d := log[..|log| - 1], log[|log| - 1];
      ReplaysAdjacent(init) && (d.event.replayed ==> Adjacent(Numbers(init), d.event.sequence))
  }

  lemma AdjacentExtends(numbers: set<int>, n: int, m: int)
    requires GapFree(numbers) && (numbers == {} || m in numbers)
    ensures GapFree(numbers + {n}) <==> Adjacent(numbers, n)
  {
    var more := numbers + {n};
    if Adjacent(numbers, n) {
      forall a, b, x | a in more && b in more && a <= x <= b ensures x in more {
        if x != n && (a == n || b == n) {
          assert numbers != {};
        }
      }
    } else {
      assert n in more && m in more;
      if n < m {
        assert n + 1 !in more;
      } else {
        assert n - 1 !in more;
      }
    }
  }

  /** In a chain of deliveries, gaps can only come from replayed numbers, and do exactly
      when one lands apart from everything delivered before it. */
  lemma {:induction false} GapFreeIff(log: seq<Delivery>)
    requires Chained(log)
    ensures AlwaysGapFree(log) <==> ReplaysAdjacent(log)
  {
    if log != [] {
      var init, d := log[..|log| - 1], log[|log| - 1];
      GapFreeIff(init);
      if GapFree(Numbers(init)) {
        AdjacentExtends(Numbers(init), d.event.sequence, if init == [] then 0 else init[|init| - 1].event.sequence);
      }
      if init != [] {
        assert d.previous == Some(init[|init| - 1].event.sequence);
        assert InOrder(d);
        assert !d.event.replayed ==> d.event.sequence - 1 in Numbers(init);
      }
    }
  }

  /** In every run, the numbers delivered since the last resync or reset form a gap-free
      interval throughout exactly when every replayed number is adjacent to them. */
  lemma RunGapFreeIff(inputs: seq<Input>)
    ensures SegmentAt(inputs) <= |Run(inputs).log|
    ensures var log := Run(inputs).log[SegmentAt(inputs)..]; AlwaysGapFree(log) <==> ReplaysAdjacent(log)
  {
    SegmentChained(inputs);
    GapFreeIff(Run(inputs).log[SegmentAt(inputs)..]);
  }

  lemma SegmentChained(inputs: seq<Input>)
    ensures SegmentAt(inputs) <= |Run(inputs).log| && Chained(Run(inputs).log[SegmentAt(inputs)..])
  {
    RunOrderly(inputs);
    var s, k := Run(inputs), SegmentAt(inputs);
    var log := s.log[k..];
    forall i | 0 < i < |log| ensures log[i].previous == Some(log[i - 1].event.sequence) {
      assert log[i] == s.log[k + i] && log[i - 1] == s.log[k + i - 1];
    }
  }

  // ---------------------------------------------------------------- each number once

  /** Numbers are delivered in strictly increasing order, so each once and `lastSequence` never moves back. */
  ghost predicate Ascends(log: seq<Delivery>) {
    forall i, j :: 0 <= i < j < |log| ==> log[i].event.sequence < log[j].event.sequence
  }

  /** After the first delivery, every replayed number is above `lastSequence`. */
  ghost predicate ReplaysAreNew(log: seq<Delivery>) {
    forall i :: 0 < i < |log| && log[i].event.replayed && log[i].previous.Some? ==>
      log[i].event.sequence > log[i].previous.value
  }

  lemma {:induction false} AscendsIff(log: seq<Delivery>)
    requires Chained(log)
    ensures Ascends(log) <==> ReplaysAreNew(log)
  {
    if |log| > 1 {
      var n := |log| - 1;
      var init, d := log[..n], log[n];
      AscendsIff(init);
      assert d.previous == Some(init[n - 1].event.sequence) && InOrder(d);
      if ReplaysAreNew(log) {
        assert ReplaysAreNew(init);
        forall i | 0 <= i < n ensures log[i].event.sequence < d.event.sequence {
          assert init[i].event.sequence <= init[n - 1].event.sequence;
        }
      }
    }
  }

  /** In every run, deliveries since the last resync or reset are in strictly increasing order exactly when
      every replayed number after the first delivery is above `lastSequence`. */
  lemma RunAscendsIff(inputs: seq<Input>)
    ensures SegmentAt(inputs) <= |Run(inputs).log|
    ensures var log := Run(inputs).log[SegmentAt(inputs)..]; Ascends(log) <==> ReplaysAreNew(log)
  {
    SegmentChained(inputs);
    AscendsIff(Run(inputs).log[SegmentAt(inputs)..]);
  }

  // ---------------------------------------------------------------- replay batches

  /** The events a replay from `last` brings: the following numbers, in order, marked. */
  ghost predicate ReplayBatch(last: int, batch: seq<Event>) {
    forall i :: 0 <= i < |batch| ==> batch[i].replayed && batch[i].kind != RESYNC && batch[i].sequence == last + 1 + i
  }

  ghost function HandleAll(s: State, batch: seq<Event>): (r: State)
    requires Keyed(s.pending)
    ensures Keyed(r.pending)
  {
    if batch == [] then s else Handle(HandleAll(s, batch[..|batch| - 1]), batch[|batch| - 1])
  }

  lemma ReplayedStep(s: State, e: Event)
    requires Keyed(s.pending) && e.replayed && e.kind != RESYNC
    ensures var r := Handle(s, e);
            && s.log <= r.log
            && r.last.Some? && r.last.value >= e.sequence && !Ready(r)
            && r.pending.Keys <= s.pending.Keys - {e.sequence}
  {
    FlushEffect(Deliver(s, e));
  }

  /** The first delivery of a replayed step is the replayed event itself. */
  lemma ReplayedNumbers(s: State, e: Event, from: nat)
    requires Keyed(s.pending) && e.replayed && e.kind != RESYNC && from <= |s.log|
    ensures |s.log| < |Handle(s, e).log|
    ensures Numbers(s.log[from..]) + {e.sequence} <= Numbers(Handle(s, e).log[from..])
  {
    var d := Deliver(s, e);
    FlushEffect(d);
    assert d.log[from..] == s.log[from..] + [Delivery(e, s.last)];
    NumbersAppend(s.log[from..], Delivery(e, s.last));
    NumbersGrow(d.log[from..], Flush(d).log[from..]);
  }

  /** Every number in `(from, upTo]` was delivered between the two states and none is still buffered. */
  ghost predicate DeliveredBetween(s: State, r: State, from: int, upTo: int) {
    && s.log <= r.log
    && forall n :: from < n <= upTo ==> n in Numbers(r.log[|s.log|..]) && n !in r.pending
  }

  /** After an uninterrupted replay of the numbers after `last`, all of them have been delivered,
      none is still buffered, `lastSequence` is at or past the end, and nothing deliverable waits. */
  lemma {:induction false} ReplayBatchDelivers(s: State, last: int, batch: seq<Event>)
    requires Keyed(s.pending) && s.last == Some(last) && ReplayBatch(last, batch)
    ensures var r := HandleAll(s, batch);
            && DeliveredBetween(s, r, last, last + |batch|)
            && r.last.Some? && r.last.value >= last + |batch|
            && (batch != [] ==> !Ready(r))
  {
    if batch != [] {
      var init, e := batch[..|batch| - 1], batch[|batch| - 1];
      ReplayBatchDelivers(s, last, init);
      var before := HandleAll(s, init);
      ReplayedStep(before, e);
      ReplayedNumbers(before, e, |s.log|);
    }
  }

  lemma {:induction false} NumbersGrow(log: seq<Delivery>, longer: seq<Delivery>)
    requires log <= longer
    ensures Numbers(log) <= Numbers(longer)
  {
    if |log| < |longer| {
      NumbersGrow(log, longer[..|longer| - 1]);
    } else {
      assert log == longer;
    }
  }

  // ---------------------------------------------------------------- when the buffer settles

  /** When can a deliverable event be left waiting? A replay or a reset always flushes; a live
      delivery does not, and leaves its successor waiting exactly when it was buffered. */
  lemma SettledAfter(s: State, e: Event)
    requires Keyed(s.pending) && e.kind != RESYNC
    requires s.last.None? || e.replayed || e.sequence == s.last.value + 1
    ensures Ready(Handle(s, e)) <==> !e.replayed && e.sequence + 1 in s.pending
  {
    if e.replayed {
      FlushEffect(Deliver(s, e));
    }
  }

  /** A live 1 and a replayed 5 leave a gap. */
  lemma GapAppears() returns (inputs: seq<Input>)
    ensures var s := Run(inputs); SegmentAt(inputs) == 0 && Numbers(s.log) == {1, 5} && !GapFree(Numbers(s.log))
  {
    var one, five := Event("tick", 1, false, ""), Event("tick", 5, true, "");
    inputs := [Message(Some(one)), Message(Some(five))];
    assert inputs[..1] == [Message(Some(one))];
    assert inputs[..1][..0] == [];
    var s := Deliver(INITIAL, one);
    assert Run(inputs[..1]) == s;
    assert SegmentAt(inputs) == SegmentAt(inputs[..1]) == SegmentAt([]);
    assert Run(inputs) == Flush(Deliver(s, five)) == Deliver(s, five);
    TwoNumbers(Delivery(one, None), Delivery(five, Some(1)));
  }

  lemma TwoNumbers(d: Delivery, e: Delivery)
    requires d.event.sequence + 1 < e.event.sequence
    ensures Numbers([d] + [e]) == {d.event.sequence, e.event.sequence} && !GapFree(Numbers([d] + [e]))
  {
    var none: seq<Delivery> := [];
    NumbersAppend(none, d);
    assert none + [d] == [d];
    NumbersAppend([d], e);
    assert d.event.sequence + 1 !in Numbers([d] + [e]);
  }

  /** Messages 1, 3, 2: number 3 is left waiting although it is next. */
  lemma LeftWaiting() returns (inputs: seq<Input>)
    ensures Ready(Run(inputs)) && Run(inputs).last == Some(2)
  {
    var one, two, three := Event("tick", 1, false, ""), Event("tick", 2, false, ""), Event("tick", 3, false, "");
    inputs := [Message(Some(one)), Message(Some(three)), Message(Some(two))];
    var s1 := Deliver(INITIAL, one);
    assert inputs[..2] == [Message(Some(one)), Message(Some(three))];
    assert inputs[..2][..1] == [Message(Some(one))];
    assert inputs[..2][..1][..0] == [];
    assert Run([Message(Some(one))]) == s1;
    assert 3 in Run(inputs[..2]).pending;
  }

  /** Delivery is at least once, not exactly once, and `lastSequence` can move backwards. */
  lemma DeliveredTwice() returns (inputs: seq<Input>)
    ensures var s := Run(inputs);
            && |s.log| == 3 && s.log[0].event.sequence == s.log[2].event.sequence == 1
            && s.log[1].event.sequence == 2 && s.last == Some(1)
  {
    var one, two := Event("tick", 1, false, ""), Event("tick", 2, false, "");
    var again := Event("tick", 1, true, "");
    inputs := [Message(Some(one)), Message(Some(two)), Message(Some(again))];
    var s1 := Deliver(INITIAL, one);
    var s2 := Deliver(s1, two);
    assert inputs[..2] == [Message(Some(one)), Message(Some(two))];
    assert inputs[..2][..1] == [Message(Some(one))];
    assert inputs[..2][..1][..0] == [];
    assert Run([Message(Some(one))]) == s1;
    assert Run(inputs[..2]) == s2;
    assert s2.pending == map[];
    assert Run(inputs) == Flush(Deliver(s2, again));
  }

  // ---------------------------------------------------------------- the client

  /** The client object; `delivered` records the `onMessage` calls, `sent` the replay requests and `inputs` the run,
      so that every theorem about runs holds of it. */
  class StreamClient {
    var lastSequence: Option<int>
    var pendingEvents: map<int, Event>
    var open: bool
    var sent: seq<int>
    var delivered: seq<Delivery>
    ghost var inputs: seq<Input>

    ghost function View(): State
      reads this
    {
      State(lastSequence, pendingEvents, open, sent, delivered)
    }

    ghost predicate Valid()
      reads this
    {
      View() == Run(inputs)
    }

    constructor ()
      ensures Valid() && inputs == []
    {
      lastSequence, pendingEvents, open, sent, delivered := None, map[], false, [], [];
      inputs := [];
    }

    method RequestReplay()
      modifies this`sent
      ensures View() == Request(old(View()))
    {
      if !open {
        return;
      }
      sent := sent + [if lastSequence.Some? then lastSequence.value else 0];
    }

    method ApplyAndFlush(event: Event)
      requires Keyed(pendingEvents)
      modifies this`lastSequence, this`pendingEvents, this`delivered
      ensures View() == if event.replayed then Flush(Deliver(old(View()), event)) else Deliver(old(View()), event)
      decreases |pendingEvents|, 1
    {
      delivered := delivered + [Delivery(event, lastSequence)];
      lastSequence := Some(event.sequence);
      RemoveNeverGrows(pendingEvents, event.sequence);
      pendingEvents := pendingEvents - {event.sequence};
      assert View() == Deliver(old(View()), event);
      if event.replayed {
        FlushPending();
      }
    }

    method FlushPending()
      requires Keyed(pendingEvents)
      modifies this`lastSequence, this`pendingEvents, this`delivered
      ensures View() == Flush(old(View()))
      decreases |pendingEvents|, 0
    {
      while lastSequence.Some?
        invariant Keyed(pendingEvents) && |pendingEvents| <= old(|pendingEvents|)
        invariant Flush(View()) == Flush(old(View()))
        decreases |pendingEvents|
      {
        var next := lastSequence.value + 1;
        if next !in pendingEvents {
          break;
        }
        var event := pendingEvents[next];
        RemoveShrinks(pendingEvents, next);
        assert pendingEvents - {next} - {next} == pendingEvents - {next};
        pendingEvents := pendingEvents - {next};
        ApplyAndFlush(event);
      }
    }

    method HandleMessage(frame: Option<Event>)
      requires Valid()
      modifies this
      ensures Valid() && inputs == old(inputs) + [Message(frame)]
    {
      RunAppend(inputs, Message(frame));
      inputs := inputs + [Message(frame)];
      if frame.None? {
        return;
      }
      var event := frame.value;
      if event.kind == RESYNC {
        lastSequence, pendingEvents := None, map[];
        return;
      }
      if lastSequence.Some? {
        var expected := lastSequence.value + 1;
        if !event.replayed && event.sequence < expected {
          return;
        }
        if !event.replayed && event.sequence > expected {
          pendingEvents := pendingEvents[event.sequence := event];
          RequestReplay();
          return;
        }
      }
      ApplyAndFlush(event);
    }

    method SetLastSequence(sequence: int)
      requires Valid()
      modifies this
      ensures Valid() && inputs == old(inputs) + [SetLast(sequence)]
    {
      RunAppend(inputs, SetLast(sequence));
      inputs := inputs + [SetLast(sequence)];
      lastSequence := Some(sequence);
      FlushPending();
    }

    method OnOpen()
      requires Valid()
      modifies this
      ensures Valid() && inputs == old(inputs) + [Opened]
    {
      RunAppend(inputs, Opened);
      inputs := inputs + [Opened];
      open := true;
      RequestReplay();
    }

    method OnClose()
      requires Valid()
      modifies this
      ensures Valid() && inputs == old(inputs) + [Closed]
    {
      RunAppend(inputs, Closed);
      inputs := inputs + [Closed];
      open := false;
    }
  }

  lemma RunAppend(inputs: seq<Input>, input: Input)
    ensures Run(inputs + [input]) == Step(Run(inputs), input)
  {
    assert (inputs + [input])[..|inputs|] == inputs;
  }
}
