/** The sliding-window budget of `ApiSecurityMiddleware`, backend/src/qts/api/security.py. */
module RateLimiting {
  import opened Optional

  datatype Kind = Safety | Write | Read

  const WINDOW: real := 60.0
  const SAFETY_SCOPE := "runtime:safety:write"

  /** The budget of each kind of request. */
  type Limits = Kind -> int

  function KindOf(scope: Option<string>): Kind {
    if scope == Some(SAFETY_SCOPE) then Safety
    else if scope.Some? && scope.value != "" then Write
    else Read
  }

  function KindName(kind: Kind): string {
    match kind
    case Safety => "safety"
    case Write => "write"
    case Read => "read"
  }

  function WindowKey(principal: string, kind: Kind): string { principal + ":" + KindName(kind) }

  /** No two (principal, kind) pairs share a window, whatever the principal ids contain. */
  lemma KeysNeverShared(p: string, k: Kind, q: string, j: Kind)
    requires WindowKey(p, k) == WindowKey(q, j)
    ensures p == q && k == j
  {
    var a, b := WindowKey(p, k), WindowKey(q, j);
    assert a[|a| - 1] == KindName(k)[|KindName(k)| - 1];
    assert b[|b| - 1] == KindName(j)[|KindName(j)| - 1];
    assert k == j;
    assert a[..|p|] == p && b[..|q|] == q;
  }

  /** The kind of a request by the scope it needs. */
  lemma KindIff(scope: Option<string>)
    ensures KindOf(scope) == Safety <==> scope == Some("runtime:safety:write")
    ensures KindOf(scope) == Read <==> scope == None || scope == Some("")
  {
  }

  /** What is left of a window once the times 60 seconds old or older are popped. */
  function Live(times: seq<real>, now: real): seq<real> {
    if times != [] && now - times[0] >= WINDOW then Live(times[1..], now) else times
  }

  datatype Call = Call(principal: string, scope: Option<string>, now: real)

  datatype Entry = Entry(key: string, now: real, accepted: bool)

  function KeyOf(call: Call): string { WindowKey(call.principal, KindOf(call.scope)) }

  datatype State = State(windows: map<string, seq<real>>, log: seq<Entry>)

  function WindowOf(windows: map<string, seq<real>>, key: string): seq<real> {
    if key in windows then windows[key] else []
  }

  function Consume(limits: Limits, s: State, call: Call): State {
    var key := KeyOf(call);
    var live := Live(WindowOf(s.windows, key), call.now);
    var accepted := |live| < limits(KindOf(call.scope));
    State(s.windows[key := if accepted then live + [call.now] else live],
          s.log + [Entry(key, call.now, accepted)])
  }

  function Run(limits: Limits, calls: seq<Call>): State {
    if calls == [] then State(map[], [])
    else Consume(limits, Run(limits, calls[..|calls| - 1]), calls[|calls| - 1])
  }

  /** `time.monotonic` never goes back. */
  ghost predicate Monotonic(calls: seq<Call>) {
    forall i, j :: 0 <= i < j < |calls| ==> calls[i].now <= calls[j].now
  }

  /** The times at which requests filed under `key` were accepted. */
  ghost function Accepted(key: string, log: seq<Entry>): seq<real> {
    if log == [] then []
    else
      var e := log[|log| - 1];
      Accepted(key, log[..|log| - 1]) + (if e.accepted && e.key == key then [e.now] else [])
  }

  /** How many of the times fall in the half-open interval of 60 seconds from `from`. */
  ghost function CountFrom(times: seq<real>, from: real): nat {
    if times == [] then 0
    else CountFrom(times[..|times| - 1], from) + (if from <= times[|times| - 1] < from + WINDOW then 1 else 0)
  }

  /** How many of the times are less than 60 seconds before `now`. */
  ghost function Recent(times: seq<real>, now: real): nat {
    if times == [] then 0
    else Recent(times[..|times| - 1], now) + (if now - times[|times| - 1] < WINDOW then 1 else 0)
  }

  ghost predicate Ascending(times: seq<real>, now: real) {
    && (forall i, j :: 0 <= i < j < |times| ==> times[i] <= times[j])
    && (forall i :: 0 <= i < |times| ==> times[i] <= now)
  }

  // ---------------------------------------------------------------- windows

  lemma {:induction false} LiveAppend(times: seq<real>, x: real, now: real)
    ensures Live(times + [x], now) == if Live(times, now) == [] then Live([x], now) else Live(times, now) + [x]
  {
    if times == [] {
      assert times + [x] == [x];
    } else if now - times[0] >= WINDOW {
      LiveAppend(times[1..], x, now);
      assert (times + [x])[1..] == times[1..] + [x];
    }
  }

  lemma {:induction false} LiveLater(times: seq<real>, t: real, now: real)
    requires t <= now
    ensures Live(Live(times, t), now) == Live(times, now)
  {
    if times != [] && t - times[0] >= WINDOW {
      LiveLater(times[1..], t, now);
    }
  }

  /** In ascending times the live part is the recent part. */
  lemma {:induction false} LiveCounts(times: seq<real>, now: real)
    requires Ascending(times, now)
    ensures |Live(times, now)| == Recent(times, now)
  {
    if times != [] {
      var init, x := times[..|times| - 1], times[|times| - 1];
      assert times == init + [x];
      LiveCounts(init, now);
      LiveAppend(init, x, now);
      if Live(init, now) != [] {
        LiveHead(init, now);
        assert now - x < WINDOW;
      }
    }
  }

  lemma {:induction false} LiveHead(times: seq<real>, now: real)
    requires Live(times, now) != []
    ensures Live(times, now)[0] in times && now - Live(times, now)[0] < WINDOW
  {
    if times != [] && now - times[0] >= WINDOW {
      LiveHead(times[1..], now);
    }
  }

  lemma {:induction false} CountWithinRecent(times: seq<real>, from: real, now: real)
    requires now < from + WINDOW && forall i :: 0 <= i < |times| ==> times[i] <= now
    ensures CountFrom(times, from) <= Recent(times, now)
  {
    if times != [] {
      CountWithinRecent(times[..|times| - 1], from, now);
    }
  }

  // ---------------------------------------------------------------- what every run keeps

  /** From `now` on, a window shows what the whole acceptance history would show. */
  ghost predicate Represents(s: State, now: real) {
    forall key, t :: t >= now ==> Live(WindowOf(s.windows, key), t) == Live(Accepted(key, s.log), t)
  }

  ghost predicate Chronological(log: seq<Entry>, now: real) {
    && (forall i, j :: 0 <= i < j < |log| ==> log[i].now <= log[j].now)
    && (forall i :: 0 <= i < |log| ==> log[i].now <= now)
  }

  lemma {:induction false} AcceptedAscending(key: string, log: seq<Entry>, now: real)
    requires Chronological(log, now)
    ensures Ascending(Accepted(key, log), now)
  {
    if log != [] {
      AcceptedAscending(key, log[..|log| - 1], log[|log| - 1].now);
    }
  }

  lemma ConsumeRepresents(limits: Limits, s: State, call: Call, before: real)
    requires before <= call.now && Represents(s, before)
    ensures Represents(Consume(limits, s, call), call.now)
  {
    var r := Consume(limits, s, call);
    assert r.log[..|s.log|] == s.log;
    forall key, t | t >= call.now ensures Live(WindowOf(r.windows, key), t) == Live(Accepted(key, r.log), t) {
      assert Live(WindowOf(s.windows, key), t) == Live(Accepted(key, s.log), t);
      if key == KeyOf(call) {
        var live := Live(WindowOf(s.windows, key), call.now);
        LiveLater(WindowOf(s.windows, key), call.now, t);
        LiveAppend(live, call.now, t);
        LiveAppend(Accepted(key, s.log), call.now, t);
        assert Accepted(key, s.log) + [] == Accepted(key, s.log);
      } else {
        assert Accepted(key, r.log) == Accepted(key, s.log) + [] == Accepted(key, s.log);
      }
    }
  }

  lemma {:induction false} RunRepresents(limits: Limits, calls: seq<Call>, now: real)
    requires Monotonic(calls) && forall i :: 0 <= i < |calls| ==> calls[i].now <= now
    ensures Represents(Run(limits, calls), now) && Chronological(Run(limits, calls).log, now)
  {
    if calls != [] {
      var init, call := calls[..|calls| - 1], calls[|calls| - 1];
      RunRepresents(limits, init, call.now);
      ConsumeRepresents(limits, Run(limits, init), call, call.now);
    }
  }

  /** A request is refused exactly when the budget's worth of acceptances of its own principal
      and kind lies in the last 60 seconds. */
  lemma RefusalIff(limits: Limits, calls: seq<Call>, call: Call)
    requires Monotonic(calls + [call])
    ensures var kind := KindOf(call.scope);
            var recent := Recent(Accepted(WindowKey(call.principal, kind), Run(limits, calls).log), call.now);
            var log := Run(limits, calls + [call]).log;
            && |log| == |calls| + 1
            && (!log[|calls|].accepted <==> recent >= limits(kind))
            && (!log[|calls|].accepted && limits(kind) >= 0 ==> recent == limits(kind))
  {
    var s, key := Run(limits, calls), KeyOf(call);
    var accepted := Accepted(key, s.log);
    assert (calls + [call])[..|calls|] == calls;
    forall i | 0 <= i < |calls| ensures calls[i].now <= call.now {
      assert (calls + [call])[i] == calls[i] && (calls + [call])[|calls|] == call;
    }
    forall i, j | 0 <= i < j < |calls| ensures calls[i].now <= calls[j].now {
      assert (calls + [call])[i] == calls[i] && (calls + [call])[j] == calls[j];
    }
    RunRepresents(limits, calls, call.now);
    LogLength(limits, calls);
    AcceptedAscending(key, s.log, call.now);
    LiveCounts(accepted, call.now);
    assert Live(WindowOf(s.windows, key), call.now) == Live(accepted, call.now);
    RecentWithinBudget(limits, calls, call.principal, KindOf(call.scope), call.now);
  }

  lemma {:induction false} LogLength(limits: Limits, calls: seq<Call>)
    ensures |Run(limits, calls).log| == |calls|
  {
    if calls != [] {
      LogLength(limits, calls[..|calls| - 1]);
    }
  }

  /** The log holds every call, under its own key and time. */
  lemma {:induction false} LogIs(limits: Limits, calls: seq<Call>, i: nat)
    requires i < |calls|
    ensures |Run(limits, calls).log| == |calls|
    ensures Run(limits, calls).log[i].now == calls[i].now
    ensures Run(limits, calls).log[i].key == WindowKey(calls[i].principal, KindOf(calls[i].scope))
  {
    var n := |calls| - 1;
    LogLength(limits, calls[..n]);
    ConsumeLogs(limits, Run(limits, calls[..n]), calls[n]);
    if i < n {
      LogIs(limits, calls[..n], i);
    }
  }

  lemma ConsumeLogs(limits: Limits, s: State, call: Call)
    ensures var log := Consume(limits, s, call).log;
            && |log| == |s.log| + 1 && log[..|s.log|] == s.log && log[|s.log|].now == call.now
            && log[|s.log|].key == WindowKey(call.principal, KindOf(call.scope))
  {
  }

  lemma AcceptedAppend(key: string, log: seq<Entry>, e: Entry, from: real)
    ensures CountFrom(Accepted(key, log + [e]), from)
         == CountFrom(Accepted(key, log), from)
            + (if e.accepted && e.key == key && from <= e.now < from + WINDOW then 1 else 0)
  {
    AcceptedIs(key, log, e);
    if e.accepted && e.key == key {
      CountAppend(Accepted(key, log), e.now, from);
    }
  }

  lemma AcceptedIs(key: string, log: seq<Entry>, e: Entry)
    ensures Accepted(key, log + [e])
         == if e.accepted && e.key == key then Accepted(key, log) + [e.now] else Accepted(key, log)
  {
    assert (log + [e])[..|log|] == log;
  }

  lemma CountAppend(times: seq<real>, x: real, from: real)
    ensures CountFrom(times + [x], from) == CountFrom(times, from) + (if from <= x < from + WINDOW then 1 else 0)
  {
    assert (times + [x])[..|times|] == times;
  }

  /** A request is accepted only when fewer than the budget are recent, so one more fits. */
  lemma ConsumeWithinBudget(limits: Limits, s: State, call: Call, principal: string, kind: Kind, from: real)
    requires Represents(s, call.now) && Chronological(s.log, call.now)
    requires CountFrom(Accepted(WindowKey(principal, kind), s.log), from) <= limits(kind)
    ensures CountFrom(Accepted(WindowKey(principal, kind), Consume(limits, s, call).log), from) <= limits(kind)
  {
    var key := WindowKey(principal, kind);
    var times, e := Accepted(key, s.log), Consume(limits, s, call).log[|s.log|];
    AcceptedAppend(key, s.log, e, from);
    if e.accepted && e.key == key && from <= e.now < from + WINDOW {
      KeysNeverShared(principal, kind, call.principal, KindOf(call.scope));
      AcceptedAscending(key, s.log, call.now);
      LiveCounts(times, call.now);
      CountWithinRecent(times, from, call.now);
      assert Live(WindowOf(s.windows, key), call.now) == Live(times, call.now);
    }
  }

  /** At most the budget is accepted in any 60 seconds, for every principal and kind. */
  lemma {:induction false} WithinBudget(limits: Limits, calls: seq<Call>, principal: string, kind: Kind, from: real)
    requires Monotonic(calls) && limits(kind) >= 0
    ensures CountFrom(Accepted(WindowKey(principal, kind), Run(limits, calls).log), from) <= limits(kind)
  {
    if calls != [] {
      var init, call := calls[..|calls| - 1], calls[|calls| - 1];
      WithinBudget(limits, init, principal, kind, from);
      RunRepresents(limits, init, call.now);
      ConsumeWithinBudget(limits, Run(limits, init), call, principal, kind, from);
    }
  }

  lemma RecentWithinBudget(limits: Limits, calls: seq<Call>, principal: string, kind: Kind, now: real)
    requires Monotonic(calls) && forall i :: 0 <= i < |calls| ==> calls[i].now <= now
    ensures limits(kind) >= 0 ==>
              Recent(Accepted(WindowKey(principal, kind), Run(limits, calls).log), now) <= limits(kind)
  {
    if limits(kind) >= 0 {
      var times := Accepted(WindowKey(principal, kind), Run(limits, calls).log);
      RunRepresents(limits, calls, now);
      AcceptedAscending(WindowKey(principal, kind), Run(limits, calls).log, now);
      LiveCounts(times, now);
      if Live(times, now) != [] {
        var from := Live(times, now)[0];
        LiveHead(times, now);
        RecentFromHead(times, now);
        WithinBudget(limits, calls, principal, kind, from);
      }
    }
  }

  /** The recent times all fall in the 60 seconds that start with the oldest of them. */
  lemma {:induction false} RecentFromHead(times: seq<real>, now: real)
    requires Ascending(times, now) && Live(times, now) != []
    ensures CountFrom(times, Live(times, now)[0]) >= Recent(times, now)
  {
    var init, x := times[..|times| - 1], times[|times| - 1];
    assert times == init + [x];
    LiveAppend(init, x, now);
    if Live(init, now) == [] {
      LiveCounts(init, now);
    } else {
      RecentFromHead(init, now);
      LiveHead(init, now);
    }
  }

  // ---------------------------------------------------------------- the middleware's windows

  class RateLimiter {
    const limits: Limits
    var windows: map<string, seq<real>>
    ghost var log: seq<Entry>

    ghost function View(): State
      reads this
    {
      State(windows, log)
    }

    constructor (limits: Limits)
      ensures this.limits == limits && View() == Run(limits, [])
    {
      this.limits := limits;
      windows, log := map[], [];
    }

    method ConsumeBudget(call: Call) returns (accepted: bool)
      modifies this
      ensures View() == Consume(limits, old(View()), call)
      ensures |log| > 0 && accepted == log[|log| - 1].accepted
    {
      var kind := KindOf(call.scope);
      var budget := limits(kind);
      var key := WindowKey(call.principal, kind);
      var window := if key in windows then windows[key] else [];
      while window != [] && call.now - window[0] >= WINDOW
        invariant Live(window, call.now) == Live(WindowOf(windows, key), call.now)
        decreases |window|
      {
        window := window[1..];
      }
      accepted := |window| < budget;
      if accepted {
        window := window + [call.now];
      }
      windows := windows[key := window];
      log := log + [Entry(key, call.now, accepted)];
    }
  }
}
