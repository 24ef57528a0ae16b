/** Rate, burst and cap limits on metered charges. */
module UsageMeter {
  import opened Base

  datatype Limits = Limits(maxCalls: Option<nat>, windowSecs: nat, burstSecs: nat, capUnits: Option<int>)

  datatype Meter = Meter(lastAt: nat, windowStart: nat, calls: nat, units: int, period: nat)

  datatype Verdict = Accepted | BurstLimitExceeded | RateLimitExceeded | UsageCapExceeded

  function PeriodAt(now: nat, startTime: nat, interval: pos): nat {
    SaturatingSub(now, startTime) / interval
  }

  function Initial(stored: Option<Meter>, now: nat, period: nat): Meter {
    if stored.Some? then stored.value else Meter(0, now, 0, 0, period)
  }

  /** A window that is over starts again at the current call. */
  function RollWindow(m: Meter, l: Limits, now: nat): Meter {
    if l.maxCalls.Some? && now >= SaturatingAdd64(m.windowStart, l.windowSecs) then m.(windowStart := now, calls := 0) else m
  }

  function RollPeriod(m: Meter, l: Limits, period: nat): Meter {
    if l.capUnits.Some? && period > m.period then m.(period := period, units := 0) else m
  }

  function SaturatingAdd128(a: int, b: int): int {
    if a + b > I128_MAX then I128_MAX else if a + b < I128_MIN then I128_MIN else a + b
  }

  /** The stored meter after one call and the verdict. A call refused by the cap still leaves a
      rolled-over period behind; the other refusals store nothing. */
  function Admit(stored: Option<Meter>, l: Limits, now: nat, period: nat, amount: int): (Option<Meter>, Verdict) {
    var m := Initial(stored, now, period);
    if l.burstSecs > 0 && SaturatingSub(now, m.lastAt) < l.burstSecs then (stored, BurstLimitExceeded)
    else
      var w := RollWindow(m, l, now);
      if l.maxCalls.Some? && w.calls >= l.maxCalls.value then (stored, RateLimitExceeded)
      else
        var p := RollPeriod(w, l, period);
        if l.capUnits.Some? && SaturatingAdd128(p.units, amount) > l.capUnits.value then
          (if period > w.period then Some(p) else stored, UsageCapExceeded)
        else
          (Some(p.(lastAt := now, calls := SaturatingAdd32(p.calls, 1), units := SaturatingAdd128(p.units, amount))), Accepted)
  }

  // ----- Whole runs -----

  datatype Call = Call(now: nat, period: nat, amount: int)

  /** One accepted call: when, how much, in which window, and as which call of that window. */
  datatype Accept = Accept(at: nat, amount: int, period: nat, window: nat, ordinal: nat)

  /** The meter and the accepted calls after a run, starting with no stored meter. */
  function Run(l: Limits, calls: seq<Call>): (Option<Meter>, seq<Accept>) {
    if calls == [] then (None, [])
    else
      var (stored, log) := Run(l, calls[..|calls| - 1]);
      var c := calls[|calls| - 1];
      var (stored', verdict) := Admit(stored, l, c.now, c.period, c.amount);
      (stored', if verdict == Accepted then log + [Accept(c.now, c.amount, c.period, stored'.value.windowStart, stored'.value.calls)] else log)
  }

  /** Positive amounts and a clock, and with it a period number, that never goes back. */
  ghost predicate Ordered(calls: seq<Call>) {
    && (forall i :: 0 <= i < |calls| ==> calls[i].amount > 0)
    && (forall i, j :: 0 <= i < j < |calls| ==> calls[i].now <= calls[j].now && calls[i].period <= calls[j].period)
  }

  /** The clock stays below its largest value, at which a window would end at once. */
  ghost predicate ClockRuns(calls: seq<Call>) {
    forall i :: 0 <= i < |calls| ==> calls[i].now < U64_MAX
  }

  // ----- Burst -----

  lemma {:induction false} LastAccepted(l: Limits, calls: seq<Call>)
    requires Ordered(calls)
    ensures var (stored, log) := Run(l, calls);
            && (log != [] ==> stored.Some? && stored.value.lastAt == log[|log| - 1].at && log[|log| - 1].at <= calls[|calls| - 1].now)
            && (log != [] ==> calls != [])
  {
    if calls != [] {
      assert forall i :: 0 <= i < |calls| - 1 ==> calls[..|calls| - 1][i] == calls[i];
      LastAccepted(l, calls[..|calls| - 1]);
    }
  }

  /** Consecutive accepted calls are at least the burst interval apart. */
  lemma {:induction false} BurstSpacing(l: Limits, calls: seq<Call>, k: nat)
    requires Ordered(calls) && k + 1 < |Run(l, calls).1|
    ensures Run(l, calls).1[k + 1].at >= Run(l, calls).1[k].at + l.burstSecs
  {
    var prior := calls[..|calls| - 1];
    assert forall i :: 0 <= i < |calls| - 1 ==> prior[i] == calls[i];
    var log := Run(l, prior).1;
    LastAccepted(l, prior);
    if k + 1 < |log| {
      BurstSpacing(l, prior, k);
    } else {
      assert prior != [] && prior[|prior| - 1].now <= calls[|calls| - 1].now;
    }
  }

  // ----- Rate -----

  /** Accepted calls are grouped into windows at least windowSecs apart, each call lies inside
      its window, and calls of one window are numbered from 1 to at most maxCalls. */
  ghost predicate Windowed(l: Limits, log: seq<Accept>) {
    && l.maxCalls.Some? && l.windowSecs > 0
    && (forall k :: 0 <= k < |log| ==> Placed(l, log[k]))
    && (log != [] ==> log[0].ordinal == 1)
    && (forall k :: 0 < k < |log| ==> FollowsAt(l, log, k))
  }

  predicate Placed(l: Limits, a: Accept)
    requires l.maxCalls.Some?
  {
    a.window <= a.at < a.window + l.windowSecs && 1 <= a.ordinal <= l.maxCalls.value
  }

  predicate FollowsAt(l: Limits, log: seq<Accept>, k: nat)
    requires 0 < k < |log|
  {
    Follows(l, log[k - 1], log[k])
  }

  predicate Follows(l: Limits, a: Accept, b: Accept) {
    || (b.window == a.window && b.ordinal == a.ordinal + 1)
    || (b.window >= a.window + l.windowSecs && b.ordinal == 1)
  }

  /** How the stored meter continues the last accepted call. */
  ghost predicate Continues(l: Limits, stored: Option<Meter>, log: seq<Accept>) {
    && (stored.None? ==> log == [])
    && (stored.Some? ==>
          var m := stored.value;
          if log == [] then m.calls == 0
          else
            var a := log[|log| - 1];
            || (m.windowStart == a.window && m.calls == a.ordinal)
            || (m.windowStart >= a.window + l.windowSecs && m.calls == 0))
  }

  lemma AppendWindowed(l: Limits, log: seq<Accept>, a: Accept)
    requires Windowed(l, log) && Placed(l, a)
    requires if log == [] then a.ordinal == 1 else Follows(l, log[|log| - 1], a)
    ensures Windowed(l, log + [a])
  {
    forall k | 0 < k < |log + [a]| ensures FollowsAt(l, log + [a], k) {
      if k < |log| { assert FollowsAt(l, log, k); }
    }
  }

  lemma AdmitWindow(l: Limits, stored: Option<Meter>, log: seq<Accept>, c: Call)
    requires l.maxCalls.Some? && l.maxCalls.value <= U32_MAX && c.now < U64_MAX
    requires Windowed(l, log) && Continues(l, stored, log)
    requires stored.Some? ==> stored.value.windowStart <= c.now
    ensures var (stored', verdict) := Admit(stored, l, c.now, c.period, c.amount);
            && (verdict != Accepted ==> Continues(l, stored', log))
            && (stored'.Some? ==> stored'.value.windowStart <= c.now)
            && (verdict == Accepted ==>
                  var log' := log + [Accept(c.now, c.amount, c.period, stored'.value.windowStart, stored'.value.calls)];
                  Windowed(l, log') && Continues(l, stored', log'))
  {
    var (stored', verdict) := Admit(stored, l, c.now, c.period, c.amount);
    if verdict == Accepted {
      var a := Accept(c.now, c.amount, c.period, stored'.value.windowStart, stored'.value.calls);
      assert log != [] ==> Follows(l, log[|log| - 1], a);
      AppendWindowed(l, log, a);
    }
  }

  lemma {:induction false} RunWindowed(l: Limits, calls: seq<Call>)
    requires Ordered(calls) && ClockRuns(calls) && l.maxCalls.Some? && l.maxCalls.value <= U32_MAX && l.windowSecs > 0
    ensures var (stored, log) := Run(l, calls);
            && Windowed(l, log) && Continues(l, stored, log)
            && (stored.Some? ==> calls != [] && stored.value.windowStart <= calls[|calls| - 1].now)
  {
    if calls != [] {
      var prior := calls[..|calls| - 1];
      assert forall i :: 0 <= i < |calls| - 1 ==> prior[i] == calls[i];
      RunWindowed(l, prior);
      var c := calls[|calls| - 1];
      if prior != [] { assert prior[|prior| - 1].now <= c.now; }
      AdmitWindow(l, Run(l, prior).0, Run(l, prior).1, c);
    }
  }

  /** Within one window the ordinals count the calls. */
  lemma {:induction false} SameWindow(l: Limits, log: seq<Accept>, i: nat, j: nat)
    requires Windowed(l, log) && i <= j < |log|
    ensures log[i].window <= log[j].window
    ensures log[i].window == log[j].window ==> log[j].ordinal - log[i].ordinal == j - i
    ensures log[i].window != log[j].window ==> log[j].window >= log[i].window + l.windowSecs
    decreases j - i
  {
    if i < j {
      SameWindow(l, log, i, j - 1);
      assert FollowsAt(l, log, j);
    }
  }

  /** A tumbling window never holds more than maxCalls accepted calls. */
  lemma TumblingWindow(l: Limits, calls: seq<Call>, i: nat, j: nat)
    requires Ordered(calls) && ClockRuns(calls) && l.maxCalls.Some? && l.maxCalls.value <= U32_MAX && l.windowSecs > 0
    requires i <= j < |Run(l, calls).1| && Run(l, calls).1[i].window == Run(l, calls).1[j].window
    ensures j - i + 1 <= l.maxCalls.value
  {
    RunWindowed(l, calls);
    SameWindow(l, Run(l, calls).1, i, j);
  }

  /** Walking back from a call reaches the first call of its window. */
  lemma {:induction false} FirstOfWindow(l: Limits, log: seq<Accept>, j: nat)
    requires Windowed(l, log) && j < |log|
    ensures var k := j - log[j].ordinal + 1;
            && 0 <= k <= j && log[k].window == log[j].window && log[k].ordinal == 1
  {
    if log[j].ordinal > 1 {
      assert j > 0;
      assert FollowsAt(l, log, j);
      FirstOfWindow(l, log, j - 1);
    }
  }

  /** Any span of windowSecs holds at most twice maxCalls accepted calls. */
  lemma SpanHoldsTwiceMax(l: Limits, calls: seq<Call>, i: nat, j: nat)
    requires Ordered(calls) && ClockRuns(calls) && l.maxCalls.Some? && l.maxCalls.value <= U32_MAX && l.windowSecs > 0
    requires i <= j < |Run(l, calls).1|
    requires Run(l, calls).1[j].at < Run(l, calls).1[i].at + l.windowSecs
    ensures j - i + 1 <= 2 * l.maxCalls.value
  {
    RunWindowed(l, calls);
    var log := Run(l, calls).1;
    FirstOfWindow(l, log, j);
    var k := j - log[j].ordinal + 1;
    SameWindow(l, log, k, j);
    if i < k {
      SameWindow(l, log, i, k - 1);
      SameWindow(l, log, k - 1, k);
      assert log[k - 1].window == log[i].window;
    } else {
      SameWindow(l, log, k, i);
      SameWindow(l, log, i, j);
    }
  }

  // ----- Cap -----

  /** Units accepted in one billing period. */
  function UnitsIn(log: seq<Accept>, period: nat): int {
    if log == [] then 0
    else UnitsIn(log[..|log| - 1], period) + (if log[|log| - 1].period == period then log[|log| - 1].amount else 0)
  }

  /** Everything accepted, in whatever period. */
  function TotalUnits(log: seq<Accept>): int {
    if log == [] then 0 else TotalUnits(log[..|log| - 1]) + log[|log| - 1].amount
  }

  lemma {:induction false} UnitsWithinTotal(log: seq<Accept>, period: nat)
    requires forall k :: 0 <= k < |log| ==> log[k].amount > 0
    ensures 0 <= UnitsIn(log, period) <= TotalUnits(log)
  {
    if log != [] { UnitsWithinTotal(log[..|log| - 1], period); }
  }

  lemma {:induction false} AcceptedArePositive(l: Limits, calls: seq<Call>)
    requires Ordered(calls)
    ensures forall k :: 0 <= k < |Run(l, calls).1| ==> Run(l, calls).1[k].amount > 0
  {
    hide Admit;
    if calls != [] {
      assert forall i :: 0 <= i < |calls| - 1 ==> calls[..|calls| - 1][i] == calls[i];
      AcceptedArePositive(l, calls[..|calls| - 1]);
    }
  }

  /** The meter's running total is what was accepted in its period; later periods are empty. */
  ghost predicate Tracks(l: Limits, stored: Option<Meter>, log: seq<Accept>, period: nat)
    requires l.capUnits.Some?
  {
    && 0 <= UnitsIn(log, period) <= l.capUnits.value
    && (stored.None? ==> UnitsIn(log, period) == 0)
    && (stored.Some? ==>
          && 0 <= stored.value.units <= l.capUnits.value
          && (period > stored.value.period ==> UnitsIn(log, period) == 0)
          && (period == stored.value.period ==> UnitsIn(log, period) == stored.value.units))
  }

  lemma UnitsAppend(log: seq<Accept>, a: Accept, period: nat)
    ensures UnitsIn(log + [a], period) == UnitsIn(log, period) + (if a.period == period then a.amount else 0)
  {
    assert (log + [a])[..|log|] == log;
  }

  lemma AdmitUnits(l: Limits, stored: Option<Meter>, log: seq<Accept>, c: Call, period: nat)
    requires l.capUnits.Some? && 0 <= l.capUnits.value < I128_MAX && c.amount > 0
    requires Tracks(l, stored, log, period) && (stored.Some? ==> stored.value.period <= c.period)
    ensures var (stored', verdict) := Admit(stored, l, c.now, c.period, c.amount);
            && (stored'.Some? ==> stored'.value.period <= c.period)
            && (verdict != Accepted ==> Tracks(l, stored', log, period))
            && (verdict == Accepted ==>
                  Tracks(l, stored', log + [Accept(c.now, c.amount, c.period, stored'.value.windowStart, stored'.value.calls)], period))
  {
    var (stored', verdict) := Admit(stored, l, c.now, c.period, c.amount);
    if verdict == Accepted {
      UnitsAppend(log, Accept(c.now, c.amount, c.period, stored'.value.windowStart, stored'.value.calls), period);
    }
  }

  lemma {:induction false} UnitsMetered(l: Limits, calls: seq<Call>, period: nat)
    requires Ordered(calls) && l.capUnits.Some? && 0 <= l.capUnits.value < I128_MAX
    ensures var (stored, log) := Run(l, calls);
            && Tracks(l, stored, log, period)
            && (stored.Some? ==> calls != [] && stored.value.period <= calls[|calls| - 1].period)
  {
    if calls != [] {
      var prior := calls[..|calls| - 1];
      assert forall i :: 0 <= i < |calls| - 1 ==> prior[i] == calls[i];
      UnitsMetered(l, prior, period);
      var c := calls[|calls| - 1];
      if prior != [] { assert prior[|prior| - 1].period <= c.period; }
      AdmitUnits(l, Run(l, prior).0, Run(l, prior).1, c, period);
    }
  }

  /** Accepted units never exceed the cap in any billing period. */
  lemma CapHolds(l: Limits, calls: seq<Call>, period: nat)
    requires Ordered(calls) && l.capUnits.Some? && 0 <= l.capUnits.value < I128_MAX
    ensures UnitsIn(Run(l, calls).1, period) <= l.capUnits.value
  {
    UnitsMetered(l, calls, period);
  }

  // ----- Exactly which calls are accepted -----

  /** Long enough after the last accepted call, or after time zero before there is one. */
  predicate BurstOver(l: Limits, log: seq<Accept>, now: nat) {
    now >= (if log == [] then 0 else log[|log| - 1].at) + l.burstSecs
  }

  /** The window is over or has calls left. */
  predicate WindowOpen(l: Limits, stored: Option<Meter>, now: nat) {
    l.maxCalls.Some? ==>
      && 0 < l.maxCalls.value
      && (stored.Some? ==> stored.value.calls < l.maxCalls.value || now >= stored.value.windowStart + l.windowSecs || now >= U64_MAX)
  }

  /** The period has room for the units. */
  predicate PeriodOpen(l: Limits, log: seq<Accept>, period: nat, amount: int) {
    l.capUnits.Some? ==> UnitsIn(log, period) + amount <= l.capUnits.value
  }

  /** The first of these that fails is reported. */
  function NextVerdict(l: Limits, stored: Option<Meter>, log: seq<Accept>, c: Call): Verdict {
    if !BurstOver(l, log, c.now) then BurstLimitExceeded
    else if !WindowOpen(l, stored, c.now) then RateLimitExceeded
    else if !PeriodOpen(l, log, c.period, c.amount) then UsageCapExceeded
    else Accepted
  }

  lemma {:induction false} NothingAcceptedYet(l: Limits, calls: seq<Call>)
    requires Ordered(calls) && Run(l, calls).1 == []
    ensures Run(l, calls).0.Some? ==> Run(l, calls).0.value.lastAt == 0
  {
    if calls != [] {
      assert forall i :: 0 <= i < |calls| - 1 ==> calls[..|calls| - 1][i] == calls[i];
      NothingAcceptedYet(l, calls[..|calls| - 1]);
    }
  }

  lemma AdmitIff(stored: Option<Meter>, l: Limits, c: Call, log: seq<Accept>)
    requires c.now <= U64_MAX && 0 < c.amount <= I128_MAX
    requires l.capUnits.Some? ==> 0 <= l.capUnits.value < I128_MAX && Tracks(l, stored, log, c.period)
    requires stored.Some? ==> stored.value.lastAt == (if log == [] then 0 else log[|log| - 1].at) <= c.now && stored.value.period <= c.period
    requires stored.None? ==> log == []
    ensures Admit(stored, l, c.now, c.period, c.amount).1 == NextVerdict(l, stored, log, c)
  {}

  /** After every run the next call is accepted if and only if the burst interval has passed since the
      last accepted call, the window has calls left or is over, and what was accepted in the period
      plus the new units stays within the cap; otherwise the first of these that fails is reported. */
  lemma NextAcceptedIff(l: Limits, calls: seq<Call>, c: Call)
    requires Ordered(calls + [c]) && c.now <= U64_MAX && c.amount <= I128_MAX
    requires l.capUnits.Some? ==> 0 <= l.capUnits.value < I128_MAX
    ensures var (stored, log) := Run(l, calls); Admit(stored, l, c.now, c.period, c.amount).1 == NextVerdict(l, stored, log, c)
  {
    hide Run, Admit, BurstOver, WindowOpen, PeriodOpen, Tracks;
    assert (calls + [c])[|calls|] == c;
    assert forall i :: 0 <= i < |calls| ==> (calls + [c])[i] == calls[i];
    assert Ordered(calls);
    var (stored, log) := Run(l, calls);
    LastAccepted(l, calls);
    PeriodsInOrder(l, calls);
    if log == [] { NothingAcceptedYet(l, calls); }
    if l.capUnits.Some? { UnitsMetered(l, calls, c.period); }
    AdmitIff(stored, l, c, log);
  }

  lemma {:induction false} PeriodsInOrder(l: Limits, calls: seq<Call>)
    requires Ordered(calls)
    ensures Run(l, calls).0.Some? ==> calls != [] && Run(l, calls).0.value.period <= calls[|calls| - 1].period
    ensures Run(l, calls).0.None? ==> Run(l, calls).1 == []
  {
    if calls != [] {
      var prior := calls[..|calls| - 1];
      assert forall i :: 0 <= i < |calls| - 1 ==> prior[i] == calls[i];
      PeriodsInOrder(l, prior);
      if prior != [] { assert prior[|prior| - 1].period <= calls[|calls| - 1].period; }
    }
  }

  // ----- Where the limits give way -----

  function AtLargestClock(n: nat): seq<Call> { seq(n, i => Call(U64_MAX, 0, 1)) }

  /** At the largest clock value the end of the window saturates to the clock itself, so every
      call opens a fresh window and any number of calls is accepted. */
  lemma {:induction false} ClockMaxDefeatsRate(l: Limits, n: nat)
    requires l.maxCalls.Some? && l.maxCalls.value > 0 && l.burstSecs == 0 && l.capUnits.None?
    ensures var (stored, log) := Run(l, AtLargestClock(n));
            && |log| == n && (forall k :: 0 <= k < n ==> log[k].at == U64_MAX)
            && (stored.Some? ==> stored.value.windowStart == U64_MAX)
  {
    if n > 0 {
      ClockMaxDefeatsRate(l, n - 1);
      assert AtLargestClock(n)[..n - 1] == AtLargestClock(n - 1);
    }
  }

  /** In any span of the rate window at most twice the allowed calls are accepted. */
  ghost predicate RateHolds(l: Limits, log: seq<Accept>) {
    l.maxCalls.Some? ==>
      forall i, j :: 0 <= i <= j < |log| && log[j].at < log[i].at + l.windowSecs ==> j - i + 1 <= 2 * l.maxCalls.value
  }

  /** A rate limit on its own is enforced in this sense, over every run whose clock stays within a
      bound, if and only if the bound is below the largest clock value. */
  lemma RateEnforcedIff(maxCalls: nat, windowSecs: nat, top: nat)
    requires 0 < maxCalls <= U32_MAX && windowSecs > 0 && top <= U64_MAX
    ensures var l := Limits(Some(maxCalls), windowSecs, 0, None);
            (forall calls: seq<Call> :: Ordered(calls) && (forall i :: 0 <= i < |calls| ==> calls[i].now <= top) ==> RateHolds(l, Run(l, calls).1)) <==> top < U64_MAX
  {
    hide Run;
    var l := Limits(Some(maxCalls), windowSecs, 0, None);
    if top < U64_MAX {
      forall calls: seq<Call> | Ordered(calls) && (forall i :: 0 <= i < |calls| ==> calls[i].now <= top) ensures RateHolds(l, Run(l, calls).1) {
        var log := Run(l, calls).1;
        forall i: nat, j: nat | i <= j < |log| && log[j].at < log[i].at + windowSecs ensures j - i + 1 <= 2 * maxCalls {
          SpanHoldsTwiceMax(l, calls, i, j);
        }
      }
    } else {
      var calls := AtLargestClock(2 * maxCalls + 1);
      ClockMaxDefeatsRate(l, |calls|);
      var log := Run(l, calls).1;
      assert log[2 * maxCalls].at < log[0].at + windowSecs;
      assert Ordered(calls) && !RateHolds(l, log);
    }
  }

  /** On the meter alone a cap is enforced, for every run and period, if and only if it is below the
      largest i128; at that value the running total saturates and lets everything through. The
      contract never meets the exception, since its lifetime total would overflow first. */
  lemma CapEnforcedIff(cap: int)
    requires 0 <= cap <= I128_MAX
    ensures var l := Limits(None, 0, 0, Some(cap));
            (forall calls, period :: Ordered(calls) ==> UnitsIn(Run(l, calls).1, period) <= cap) <==> cap < I128_MAX
  {
    hide Admit, Run, UnitsIn;
    var l := Limits(None, 0, 0, Some(cap));
    if cap < I128_MAX {
      forall calls, period | Ordered(calls) ensures UnitsIn(Run(l, calls).1, period) <= cap { CapHolds(l, calls, period); }
    } else {
      LargestCapIsExceeded();
    }
  }

  lemma LargestCapIsExceeded()
    ensures var l := Limits(None, 0, 0, Some(I128_MAX));
            var calls := [Call(0, 0, I128_MAX), Call(0, 0, I128_MAX)];
            Ordered(calls) && UnitsIn(Run(l, calls).1, 0) > I128_MAX
  {
    var l := Limits(None, 0, 0, Some(I128_MAX));
    var c := Call(0, 0, I128_MAX);
    var calls := [c, c];
    var a, b := Accept(0, I128_MAX, 0, 0, 1), Accept(0, I128_MAX, 0, 0, 2);
    assert calls[..1] == [c] && [c][..0] == [];
    assert Admit(None, l, 0, 0, I128_MAX) == (Some(Meter(0, 0, 1, I128_MAX, 0)), Accepted);
    assert Run(l, []) == (None, []) && [] + [a] == [a];
    assert Run(l, [c]) == (Some(Meter(0, 0, 1, I128_MAX, 0)), [a]);
    assert calls[..|calls| - 1] == [c] && calls[|calls| - 1] == c;
    assert [a] + [b] == [a, b];
    assert Run(l, calls).1 == [a, b];
    assert [a, b][..1] == [a] && [a][..0] == [];
    assert UnitsIn([a], 0) == I128_MAX;
  }

  // ----- The meter of one subscription -----

  class MeterStore {
    var stored: Option<Meter>

    constructor ()
      ensures stored == None
    {
      stored := None;
    }

    method Try(l: Limits, now: nat, period: nat, amount: int) returns (verdict: Verdict)
      modifies this
      ensures (stored, verdict) == Admit(old(stored), l, now, period, amount)
    {
      var state := if stored.Some? then stored.value else Meter(0, now, 0, 0, period);
      if l.burstSecs > 0 {
        var elapsed := SaturatingSub(now, state.lastAt);
        if elapsed < l.burstSecs {
          return BurstLimitExceeded;
        }
      }
      if l.maxCalls.Some? {
        if now >= SaturatingAdd64(state.windowStart, l.windowSecs) {
          state := state.(windowStart := now, calls := 0);
        }
        if state.calls >= l.maxCalls.value {
          return RateLimitExceeded;
        }
      }
      if l.capUnits.Some? {
        if period > state.period {
          state := state.(period := period, units := 0);
          stored := Some(state);
        }
        if SaturatingAdd128(state.units, amount) > l.capUnits.value {
          return UsageCapExceeded;
        }
      }
      state := state.(lastAt := now);
      state := state.(calls := SaturatingAdd32(state.calls, 1));
      state := state.(units := SaturatingAdd128(state.units, amount));
      stored := Some(state);
      return Accepted;
    }
  }
}
