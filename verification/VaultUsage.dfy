/** The usage limits over whole runs of the contract: a subscription's stored meter is always the
    meter of the sequence of its usage charges, so the bounds proved for meters hold of it. */
module VaultUsage {
  import opened Base
  import opened StateMachine
  import opened Accounts
  import opened AccountLaws
  import opened Vault
  import opened VaultInvariant
  import opened VaultFrames
  import opened VaultRuns
  import opened VaultTraces
  import IdemRing
  import Ledger
  import Snapshots
  import StatementLog
  import UsageMeter

  /** Did this call store something in the meter, or get charged? */
  predicate ReachesMeter(v: Vault, op: Op, id: nat) {
    && op.MeteredCharge? && op.id == id && id in v.accounts && id in UsageStep(v, op).accounts
    && (UsageStep(v, op).accounts[id].meter != v.accounts[id].meter || Accepts(v, op))
  }

  function UsageStep(v: Vault, op: Op): Vault
    requires op.MeteredCharge?
  {
    KeptFirst(v, ChargeUsage(v, op.id, op.amount, op.reference))
  }

  lemma StepIsUsageStep(v: Vault, op: Op)
    requires op.MeteredCharge?
    ensures Step(v, op) == UsageStep(v, op)
  {
    hide ChargeUsage, KeptFirst;
  }

  /** A usage charge that was accepted. */
  predicate Accepts(v: Vault, op: Op)
    requires op.MeteredCharge?
  {
    var r := ChargeUsage(v, op.id, op.amount, op.reference);
    r.Ok? && r.value.1 == UsageCharged
  }

  function CallOf(v: Vault, op: Op): UsageMeter.Call
    requires op.MeteredCharge? && op.id in v.accounts
  {
    UsageMeter.Call(v.now, CurrentPeriod(v.accounts[op.id].sub, v.now), op.amount)
  }

  /** The calls of a run that reach the meter of a subscription. */
  function MeterCalls(v: Vault, ops: seq<Op>, id: nat): seq<UsageMeter.Call> {
    if ops == [] then []
    else
      var w, op := Run(v, ops[..|ops| - 1]), ops[|ops| - 1];
      MeterCalls(v, ops[..|ops| - 1], id) + (if ReachesMeter(w, op, id) then [CallOf(w, op)] else [])
  }

  // ----- One call -----

  /** What a usage decision does to the meter. */
  lemma DecisionMeter(cfg: Config, a: Account, now: nat, ledgerSeq: nat, amount: int, reference: string)
    requires a.limits.Some?
    ensures var d := DecideUsage(cfg, a, now, ledgerSeq, amount, reference);
            var (meter, verdict) := UsageMeter.Admit(a.meter, a.limits.value, now, CurrentPeriod(a.sub, now), amount);
            && (d.FinishUsage? ==> d.account.limits == a.limits && (d.account.meter == a.meter || d.account.meter == meter))
            && (d.FinishUsage? && d.result == Ok(UsageCharged) ==> d.account.meter == meter && verdict == UsageMeter.Accepted && amount > 0)
            && (d.FinishUsage? && d.account.meter != a.meter ==> amount > 0)
            && (d.SettleUsage? ==> d.metered.meter == meter && d.metered.limits == a.limits && verdict == UsageMeter.Accepted && amount > 0 && d.plan.amount == amount)
  {
    hide UsageMeter.Admit, UsageMeter.PeriodAt, IsExpired;
  }

  lemma RecordUsageMeter(metered: Account, p: Plan, now: nat, reference: string)
    requires RecordUsage(metered, p, now, reference).Ok?
    ensures RecordUsage(metered, p, now, reference).value.meter == metered.meter && RecordUsage(metered, p, now, reference).value.limits == metered.limits
  {
    hide Snapshots.Write, StatementLog.Append;
  }

  lemma UsageMeterStep(v: Vault, id: nat, amount: int, reference: string)
    requires Inv(v) && id in v.accounts && v.accounts[id].limits.Some?
    ensures var op := MeteredCharge(id, amount, reference); var a := v.accounts[id];
            var (meter, verdict) := UsageMeter.Admit(a.meter, a.limits.value, v.now, CurrentPeriod(a.sub, v.now), amount);
            && id in UsageStep(v, op).accounts && UsageStep(v, op).accounts[id].limits == a.limits
            && UsageStep(v, op).accounts[id].meter == (if ReachesMeter(v, op, id) then meter else a.meter)
            && (ReachesMeter(v, op, id) ==> amount > 0)
            && (Accepts(v, op) ==> verdict == UsageMeter.Accepted)
  {
    hide Inv, DecideUsage, RecordUsage, PartyObstacle, Credits, Ledger.CreditAll, UsageMeter.Admit, UsageMeter.PeriodAt, ProductsFit;
    var a := v.accounts[id];
    DecisionMeter(v.cfg, a, v.now, v.ledgerSeq, amount, reference);
    var d := DecideUsage(v.cfg, a, v.now, v.ledgerSeq, amount, reference);
    if d.SettleUsage? && RecordUsage(d.metered, d.plan, v.now, reference).Ok? { RecordUsageMeter(d.metered, d.plan, v.now, reference); }
  }

  lemma OtherMeterStep(v: Vault, op: Op, id: nat)
    requires Inv(v) && id in v.accounts && !(op.MeteredCharge? && op.id == id)
    ensures id in Step(v, op).accounts
    ensures Step(v, op).accounts[id].meter == v.accounts[id].meter && Step(v, op).accounts[id].limits == v.accounts[id].limits
  {
    hide Inv, Step, ChargeUsage;
    if op.MeteredCharge? {
      StepIsUsageStep(v, op);
      UsageElsewhere(v, op, id);
    } else {
      StepAccount(v, op, id);
    }
  }

  lemma UsageElsewhere(v: Vault, op: Op, id: nat)
    requires op.MeteredCharge? && op.id != id && id in v.accounts
    ensures id in UsageStep(v, op).accounts && UsageStep(v, op).accounts[id] == v.accounts[id]
  {
    hide ChargeUsage;
    ChargeUsageFrame(v, op.id, op.amount, op.reference);
  }

  /** Every call stores in the meter exactly what the meter's own step says. */
  lemma StepMeter(v: Vault, op: Op, id: nat)
    requires Inv(v) && id in v.accounts && v.accounts[id].limits.Some?
    ensures id in Step(v, op).accounts && Step(v, op).accounts[id].limits == v.accounts[id].limits
    ensures !ReachesMeter(v, op, id) ==> Step(v, op).accounts[id].meter == v.accounts[id].meter
    ensures ReachesMeter(v, op, id) ==>
              && CallOf(v, op).amount > 0
              && Step(v, op).accounts[id].meter == UsageMeter.Admit(v.accounts[id].meter, v.accounts[id].limits.value, v.now, CallOf(v, op).period, op.amount).0
              && (Accepts(v, op) ==> UsageMeter.Admit(v.accounts[id].meter, v.accounts[id].limits.value, v.now, CallOf(v, op).period, op.amount).1 == UsageMeter.Accepted)
  {
    hide Inv, Step, ChargeUsage, UsageMeter.Admit, CurrentPeriod;
    if op.MeteredCharge? && op.id == id {
      StepIsUsageStep(v, op);
      assert op == MeteredCharge(id, op.amount, op.reference);
      UsageMeterStep(v, id, op.amount, op.reference);
    } else {
      OtherMeterStep(v, op, id);
    }
  }

  // ----- Runs -----

  /** A sequence of usage calls describes the meter stored in a state. */
  ghost predicate Describes(calls: seq<UsageMeter.Call>, w: Vault, id: nat, l: UsageMeter.Limits) {
    && id in w.accounts && w.accounts[id].limits == Some(l)
    && w.accounts[id].meter == UsageMeter.Run(l, calls).0
    && UsageMeter.Ordered(calls)
    && forall c :: c in calls ==> c.now <= w.now && c.period <= CurrentPeriod(w.accounts[id].sub, w.now)
  }

  /** What a step leaves of the terms, clocks and periods. */
  lemma StepTerms(w: Vault, op: Op, id: nat)
    requires Inv(w) && id in w.accounts
    ensures id in Step(w, op).accounts && SameContract(w.accounts[id].sub, Step(w, op).accounts[id].sub)
    ensures w.now <= Step(w, op).now
    ensures CurrentPeriod(w.accounts[id].sub, w.now) <= CurrentPeriod(Step(w, op).accounts[id].sub, Step(w, op).now)
  {
    hide Inv, Step, CurrentPeriod;
    StepSpacing(w, op, id);
    StepFrame(w, op);
    SamePeriod(w.accounts[id].sub, Step(w, op).accounts[id].sub, Step(w, op).now);
    PeriodMono(w.accounts[id].sub, w.now, Step(w, op).now);
  }

  /** A call that does not reach the meter leaves the description as it is. */
  lemma StepElsewhere(calls: seq<UsageMeter.Call>, w: Vault, op: Op, id: nat, l: UsageMeter.Limits)
    requires Inv(w) && Describes(calls, w, id, l) && !ReachesMeter(w, op, id)
    ensures Describes(calls, Step(w, op), id, l)
  {
    hide Inv, Step, ReachesMeter, UsageMeter.Run, UsageMeter.Ordered, CurrentPeriod;
    StepMeter(w, op, id);
    StepTerms(w, op, id);
  }

  /** One that does extends it by one call. */
  lemma StepReaches(calls: seq<UsageMeter.Call>, w: Vault, op: Op, id: nat, l: UsageMeter.Limits)
    requires Inv(w) && Describes(calls, w, id, l) && ReachesMeter(w, op, id)
    ensures Describes(calls + [CallOf(w, op)], Step(w, op), id, l)
  {
    hide Inv, Step, Accepts, ChargeUsage, UsageMeter.Run, UsageMeter.Admit, CurrentPeriod;
    StepMeter(w, op, id);
    StepTerms(w, op, id);
    AppendCall(l, calls, CallOf(w, op));
  }

  /** The meter stored after any run is the meter of the calls made so far, which are in order;
      the accepted calls of the meter include every usage charge that was accepted. */
  lemma {:induction false} MeterRefines(v: Vault, ops: seq<Op>, id: nat, l: UsageMeter.Limits)
    requires Inv(v) && IdsLast(v, ops) && id in v.accounts && v.accounts[id].limits == Some(l) && v.accounts[id].meter == None
    ensures Describes(MeterCalls(v, ops, id), Run(v, ops), id, l)
    ensures SameContract(v.accounts[id].sub, Run(v, ops).accounts[id].sub) && v.now <= Run(v, ops).now
  {
    hide Inv, Step, ReachesMeter, Describes;
    if ops == [] {
      DescribesNew(v, id, l);
    } else {
      var n := |ops| - 1;
      var w, op := Run(v, ops[..n]), ops[n];
      MeterRefines(v, ops[..n], id, l);
      RunInv(v, ops[..n]);
      DescribesKnown(MeterCalls(v, ops[..n], id), w, id, l);
      StepTerms(w, op, id);
      if ReachesMeter(w, op, id) {
        ReachesUsage(w, op, id);
        StepReaches(MeterCalls(v, ops[..n], id), w, op, id, l);
        assert MeterCalls(v, ops, id) == MeterCalls(v, ops[..n], id) + [CallOf(w, op)];
      } else {
        StepElsewhere(MeterCalls(v, ops[..n], id), w, op, id, l);
        assert MeterCalls(v, ops, id) == MeterCalls(v, ops[..n], id);
      }
    }
  }

  lemma DescribesNew(v: Vault, id: nat, l: UsageMeter.Limits)
    requires id in v.accounts && v.accounts[id].limits == Some(l) && v.accounts[id].meter == None
    ensures Describes([], v, id, l)
  {}

  lemma DescribesKnown(calls: seq<UsageMeter.Call>, w: Vault, id: nat, l: UsageMeter.Limits)
    requires Describes(calls, w, id, l)
    ensures id in w.accounts
  {}

  lemma ReachesUsage(w: Vault, op: Op, id: nat)
    requires ReachesMeter(w, op, id)
    ensures op.MeteredCharge? && op.id in w.accounts
  {}

  lemma SamePeriod(s: Subscription, s': Subscription, now: nat)
    requires s.startTime == s'.startTime && s.interval == s'.interval
    ensures CurrentPeriod(s, now) == CurrentPeriod(s', now)
  {}

  /** Adding one call to a run of the meter. */
  lemma AppendCall(l: UsageMeter.Limits, calls: seq<UsageMeter.Call>, c: UsageMeter.Call)
    ensures UsageMeter.Run(l, calls + [c]).0 == UsageMeter.Admit(UsageMeter.Run(l, calls).0, l, c.now, c.period, c.amount).0
  {
    hide UsageMeter.Admit;
    assert (calls + [c])[..|calls|] == calls;
  }

  lemma AppendAccepted(l: UsageMeter.Limits, calls: seq<UsageMeter.Call>, c: UsageMeter.Call)
    requires UsageMeter.Admit(UsageMeter.Run(l, calls).0, l, c.now, c.period, c.amount).1 == UsageMeter.Accepted
    ensures var before, log := UsageMeter.Run(l, calls).1, UsageMeter.Run(l, calls + [c]).1;
            |log| == |before| + 1 && log[..|before|] == before && log[|before|].at == c.now && log[|before|].amount == c.amount
  {
    assert (calls + [c])[..|calls|] == calls;
  }

  /** A usage charge that is accepted at the end of a run is the last accepted call of the meter. */
  lemma AcceptedIsMetered(v: Vault, ops: seq<Op>, op: Op, l: UsageMeter.Limits)
    requires op.MeteredCharge? && Inv(v) && IdsLast(v, ops) && op.id in v.accounts && v.accounts[op.id].limits == Some(l) && v.accounts[op.id].meter == None
    requires op.id in Run(v, ops).accounts && Accepts(Run(v, ops), op)
    ensures var log := UsageMeter.Run(l, MeterCalls(v, ops + [op], op.id)).1;
            && log != [] && log[|log| - 1].at == Run(v, ops).now && log[|log| - 1].amount == op.amount
            && log[..|log| - 1] == UsageMeter.Run(l, MeterCalls(v, ops, op.id)).1
  {
    hide Inv, Step, ChargeUsage, UsageMeter.Admit, UsageMeter.Run, CurrentPeriod;
    MeterRefines(v, ops, op.id, l);
    RunInv(v, ops);
    StepMeter(Run(v, ops), op, op.id);
    StepIsUsageStep(Run(v, ops), op);
    assert (ops + [op])[..|ops|] == ops;
    assert MeterCalls(v, ops + [op], op.id) == MeterCalls(v, ops, op.id) + [CallOf(Run(v, ops), op)];
    AppendAccepted(l, MeterCalls(v, ops, op.id), CallOf(Run(v, ops), op));
  }

  // ----- Accepted units and the lifetime total -----

  /** A usage charge whose call reaches the meter: what is accepted is added to the lifetime total,
      unless the lifetime cap ends the subscription, and in either case the sum fits in i128. */
  lemma DecisionUnits(cfg: Config, a: Account, now: nat, ledgerSeq: nat, amount: int, reference: string)
    requires a.limits.Some?
    ensures var d := DecideUsage(cfg, a, now, ledgerSeq, amount, reference);
            var verdict := UsageMeter.Admit(a.meter, a.limits.value, now, CurrentPeriod(a.sub, now), amount).1;
            && (d.FinishUsage? && d.result.Ok? ==> d.account.sub.lifetimeCharged == a.sub.lifetimeCharged)
            && (d.FinishUsage? && d.account.meter != a.meter ==> a.sub.status == Active)
            && (d.FinishUsage? && d.result == Ok(UsageCharged) ==> a.sub.status == Active && a.sub.lifetimeCharged + amount <= I128_MAX && d.account.sub.status == Cancelled)
            && (d.FinishUsage? && d.result.Ok? && d.result != Ok(UsageCharged) && d.account.meter != a.meter ==> verdict != UsageMeter.Accepted)
            && (d.SettleUsage? ==> a.sub.status == Active && d.plan.sub == a.sub && d.plan.amount == amount && a.sub.lifetimeCharged + amount <= I128_MAX)
  {
    hide UsageMeter.Admit, UsageMeter.PeriodAt, IsExpired, CapIsReached;
  }

  lemma RecordUsageTotal(metered: Account, p: Plan, now: nat, reference: string)
    requires RecordUsage(metered, p, now, reference).Ok?
    ensures RecordUsage(metered, p, now, reference).value.sub.lifetimeCharged == p.sub.lifetimeCharged + p.amount
  {
    hide Snapshots.Write, StatementLog.Append;
  }

  lemma ReachingUnits(v: Vault, op: Op, id: nat)
    requires ReachesMeter(v, op, id) && v.accounts[id].limits.Some? && op.amount > 0
    ensures var a, a' := v.accounts[id], UsageStep(v, op).accounts[id];
            var verdict := UsageMeter.Admit(a.meter, a.limits.value, v.now, CallOf(v, op).period, op.amount).1;
            && !Terminal(a.sub.status)
            && (if verdict == UsageMeter.Accepted
                then a.sub.lifetimeCharged + op.amount <= I128_MAX && (Terminal(a'.sub.status) || a'.sub.lifetimeCharged == a.sub.lifetimeCharged + op.amount)
                else a'.sub.lifetimeCharged >= a.sub.lifetimeCharged)
  {
    hide DecideUsage, RecordUsage, PartyObstacle, Credits, Ledger.CreditAll, UsageMeter.Admit, UsageMeter.PeriodAt, ProductsFit;
    var a := v.accounts[id];
    DecisionUnits(v.cfg, a, v.now, v.ledgerSeq, op.amount, op.reference);
    var d := DecideUsage(v.cfg, a, v.now, v.ledgerSeq, op.amount, op.reference);
    if d.SettleUsage? && RecordUsage(d.metered, d.plan, v.now, op.reference).Ok? { RecordUsageTotal(d.metered, d.plan, v.now, op.reference); }
  }

  /** A call that does not reach the meter takes nothing off the lifetime total and revives nothing. */
  lemma TotalsOnlyGrow(v: Vault, op: Op, id: nat)
    requires Inv(v) && id in v.accounts
    ensures id in Step(v, op).accounts
    ensures Step(v, op).accounts[id].sub.lifetimeCharged >= v.accounts[id].sub.lifetimeCharged
    ensures Terminal(v.accounts[id].sub.status) ==> Terminal(Step(v, op).accounts[id].sub.status)
  {
    hide Inv, Step, Settles, Meters;
    StepAccount(v, op, id);
    var a, a' := v.accounts[id], Step(v, op).accounts[id];
    if Settles(a, a', id, v.cfg, v.now) || Meters(a, a', v.now) {
      OnlyLiveIsCharged(a, a', id, v.cfg, v.now);
      ChargedTotals(a, a', id, v.cfg, v.now);
    }
  }

  lemma ChargedTotals(a: Account, a': Account, id: nat, cfg: Config, now: nat)
    requires Settles(a, a', id, cfg, now) || Meters(a, a', now)
    ensures a'.sub.lifetimeCharged >= a.sub.lifetimeCharged
  {
    hide StatementLog.Append, Snapshots.Write, IdemRing.PushKey, IdemRing.CheckKey;
  }

  /** Everything accepted since the start fits beside the lifetime total of the start, and is part
      of the current one while the subscription lives. */
  ghost predicate WithinLifetime(start: int, w: Vault, id: nat, log: seq<UsageMeter.Accept>)
    requires id in w.accounts
  {
    && start + UsageMeter.TotalUnits(log) <= I128_MAX
    && (Terminal(w.accounts[id].sub.status) || start + UsageMeter.TotalUnits(log) <= w.accounts[id].sub.lifetimeCharged)
  }

  lemma AppendUnits(l: UsageMeter.Limits, calls: seq<UsageMeter.Call>, c: UsageMeter.Call)
    ensures UsageMeter.TotalUnits(UsageMeter.Run(l, calls + [c]).1)
         == UsageMeter.TotalUnits(UsageMeter.Run(l, calls).1)
          + (if UsageMeter.Admit(UsageMeter.Run(l, calls).0, l, c.now, c.period, c.amount).1 == UsageMeter.Accepted then c.amount else 0)
  {
    assert (calls + [c])[..|calls|] == calls;
    if UsageMeter.Admit(UsageMeter.Run(l, calls).0, l, c.now, c.period, c.amount).1 == UsageMeter.Accepted {
      AppendAccepted(l, calls, c);
    }
  }

  lemma StepWithinLifetime(start: int, calls: seq<UsageMeter.Call>, w: Vault, op: Op, id: nat, l: UsageMeter.Limits)
    requires Inv(w) && Describes(calls, w, id, l) && WithinLifetime(start, w, id, UsageMeter.Run(l, calls).1)
    ensures id in Step(w, op).accounts
    ensures var calls' := if ReachesMeter(w, op, id) then calls + [CallOf(w, op)] else calls;
            WithinLifetime(start, Step(w, op), id, UsageMeter.Run(l, calls').1)
  {
    hide Inv, Step, ChargeUsage, UsageMeter.Run, UsageMeter.Admit, UsageMeter.TotalUnits, CurrentPeriod;
    TotalsOnlyGrow(w, op, id);
    if ReachesMeter(w, op, id) {
      StepMeter(w, op, id);
      StepIsUsageStep(w, op);
      ReachingUnits(w, op, id);
      AppendUnits(l, calls, CallOf(w, op));
    }
  }

  /** So over every run the units accepted of a subscription, in all periods together, never exceed
      what its lifetime total has room for. */
  lemma {:induction false} UnitsWithinLifetime(v: Vault, ops: seq<Op>, id: nat, l: UsageMeter.Limits)
    requires Inv(v) && IdsLast(v, ops) && id in v.accounts && v.accounts[id].limits == Some(l) && v.accounts[id].meter == None
    ensures id in Run(v, ops).accounts
    ensures WithinLifetime(v.accounts[id].sub.lifetimeCharged, Run(v, ops), id, UsageMeter.Run(l, MeterCalls(v, ops, id)).1)
  {
    hide Inv, Step, ReachesMeter, UsageMeter.Run, WithinLifetime;
    if ops == [] {
      NothingAccepted(v, id, l);
    } else {
      var n := |ops| - 1;
      var w, op := Run(v, ops[..n]), ops[n];
      UnitsWithinLifetime(v, ops[..n], id, l);
      MeterRefines(v, ops[..n], id, l);
      RunInv(v, ops[..n]);
      StepWithinLifetime(v.accounts[id].sub.lifetimeCharged, MeterCalls(v, ops[..n], id), w, op, id, l);
      if ReachesMeter(w, op, id) {
        ReachesUsage(w, op, id);
        assert MeterCalls(v, ops, id) == MeterCalls(v, ops[..n], id) + [CallOf(w, op)];
      } else {
        assert MeterCalls(v, ops, id) == MeterCalls(v, ops[..n], id);
      }
    }
  }

  lemma NothingAccepted(v: Vault, id: nat, l: UsageMeter.Limits)
    requires Inv(v) && id in v.accounts
    ensures WithinLifetime(v.accounts[id].sub.lifetimeCharged, v, id, UsageMeter.Run(l, []).1)
  {
    KnownShape(v, id);
  }

  /** Hence a usage cap holds over every run, the largest i128 included. */
  lemma CapHolds(v: Vault, ops: seq<Op>, id: nat, l: UsageMeter.Limits, period: nat)
    requires Inv(v) && IdsLast(v, ops) && id in v.accounts && v.accounts[id].limits == Some(l) && v.accounts[id].meter == None
    requires l.capUnits.Some? && 0 <= l.capUnits.value <= I128_MAX
    ensures UsageMeter.UnitsIn(UsageMeter.Run(l, MeterCalls(v, ops, id)).1, period) <= l.capUnits.value
  {
    hide Inv, Run, MeterCalls, UsageMeter.Run;
    var calls := MeterCalls(v, ops, id);
    MeterRefines(v, ops, id, l);
    if l.capUnits.value < I128_MAX {
      UsageMeter.CapHolds(l, calls, period);
    } else {
      UnitsWithinLifetime(v, ops, id, l);
      UsageMeter.AcceptedArePositive(l, calls);
      UsageMeter.UnitsWithinTotal(UsageMeter.Run(l, calls).1, period);
      KnownShape(v, id);
    }
  }

  /** Hence, over any run: in any billing period no more units than the cap, consecutive calls at
      least the burst interval apart, and, before the clock reaches its largest value, in any span
      of the rate window at most twice the allowed number of calls. */
  lemma UsageBounds(v: Vault, ops: seq<Op>, id: nat, l: UsageMeter.Limits, i: nat, j: nat, period: nat)
    requires Inv(v) && IdsLast(v, ops) && id in v.accounts && v.accounts[id].limits == Some(l) && v.accounts[id].meter == None
    requires i <= j < |UsageMeter.Run(l, MeterCalls(v, ops, id)).1|
    ensures var log := UsageMeter.Run(l, MeterCalls(v, ops, id)).1;
            && (Run(v, ops).now < U64_MAX && l.maxCalls.Some? && l.maxCalls.value <= U32_MAX && l.windowSecs > 0 && log[j].at < log[i].at + l.windowSecs ==> j - i + 1 <= 2 * l.maxCalls.value)
            && (l.capUnits.Some? && 0 <= l.capUnits.value <= I128_MAX ==> UsageMeter.UnitsIn(log, period) <= l.capUnits.value)
            && (0 < j && l.burstSecs > 0 ==> log[j - 1].at + l.burstSecs <= log[j].at)
  {
    hide Inv, MeterCalls, UsageMeter.Run, CurrentPeriod;
    MeterRefines(v, ops, id, l);
    var calls, log := MeterCalls(v, ops, id), UsageMeter.Run(l, MeterCalls(v, ops, id)).1;
    if Run(v, ops).now < U64_MAX && l.maxCalls.Some? && l.maxCalls.value <= U32_MAX && l.windowSecs > 0 && log[j].at < log[i].at + l.windowSecs {
      UsageMeter.SpanHoldsTwiceMax(l, calls, i, j);
    }
    if l.capUnits.Some? && 0 <= l.capUnits.value <= I128_MAX { CapHolds(v, ops, id, l, period); }
    if 0 < j { UsageMeter.BurstSpacing(l, calls, j - 1); }
  }
}
