/** What any call can do to one subscription's records: nothing that matters to billing, one
    settled interval charge, or one settled usage charge. Spacing of charges and replay
    protection over whole runs follow from it. */
module VaultTraces {
  import opened Base
  import opened StateMachine
  import opened Accounts
  import opened AccountLaws
  import opened Vault
  import opened VaultInvariant
  import opened VaultFrames
  import opened VaultRuns
  import ChargeMath
  import StatementLog
  import Snapshots
  import IdemRing
  import Ledger

  ghost predicate SettledAs(a: Account, a': Account, id: nat, cfg: Config, now: nat, key: Option<nat>, p: Plan) {
    && SettledBy(a, p, now) && InI128(p.sub.lifetimeCharged + p.amount)
    && !(key.Some? && IdemRing.CheckKey(a.idem, Fingerprint(id, key.value), now, cfg.idemTtl))
    && a' == RecordInterval(cfg, a, p, id, now, key).0
  }

  ghost predicate Settles(a: Account, a': Account, id: nat, cfg: Config, now: nat) {
    exists key, p :: SettledAs(a, a', id, cfg, now, key, p)
  }

  ghost predicate MeteredAs(a: Account, a': Account, now: nat, metered: Account, p: Plan, reference: string) {
    UsageSettledBy(a, metered, p, now) && RecordUsage(metered, p, now, reference) == Ok(a')
  }

  ghost predicate Meters(a: Account, a': Account, now: nat) {
    exists metered, p, reference :: MeteredAs(a, a', now, metered, p, reference)
  }

  lemma CarryAccount(v: Vault, id: nat, settings: Admin, key: Option<nat>, d: Decision)
    requires id in v.accounts && MovesNothing(v.accounts[id], d)
    requires d.Settle? ==> SettledBy(v.accounts[id], d.plan, v.now) && !(key.Some? && IdemRing.CheckKey(v.accounts[id].idem, Fingerprint(id, key.value), v.now, v.cfg.idemTtl))
    ensures var v' := Carry(v, id, settings, key, d).0;
            id in v'.accounts && (Untouched(v.accounts[id], v'.accounts[id]) || Settles(v.accounts[id], v'.accounts[id], id, v.cfg, v.now))
  {
    hide SettledBy, Credits, Ledger.CreditAll, StatementLog.Append, Snapshots.Write, IdemRing.PushKey, IdemRing.CheckKey;
    var a, a' := v.accounts[id], Carry(v, id, settings, key, d).0.accounts[id];
    match d {
      case Finish(_, _) =>
      case Refund(_, _) =>
      case Settle(p) =>
        if a' != a && InI128(p.sub.lifetimeCharged + p.amount) { assert SettledAs(a, a', id, v.cfg, v.now, key, p); }
    }
  }

  lemma ChargeOneAccount(v: Vault, id: nat, key: Option<nat>, admin: Option<Admin>, cache: Option<Cache>)
    requires Inv(v) && id in v.accounts
    ensures var v' := ChargeOne(v, id, key, admin, cache).vault;
            id in v'.accounts && (Untouched(v.accounts[id], v'.accounts[id]) || Settles(v.accounts[id], v'.accounts[id], id, v.cfg, v.now))
  {
    hide DecideInterval, Carry, Settles, Untouched, MovesNothing, SettledBy, AccountInv, EachAccount, DisputesOk, EscrowsOk, CouponsOk, LedgerOk, PartyObstacle;
    var settings := if admin.Some? then admin.value else StoredAdmin(v.cfg);
    var a := v.accounts[id];
    Known(v, id);
    UntouchedSelf(a);
    FinishIsHarmless(v.cfg, settings, a, id, v.now, v.ledgerSeq, key);
    var d := DecideInterval(v.cfg, settings, a, id, v.now, v.ledgerSeq, key);
    if d.Settle? { SettleGuards(v.cfg, settings, a, id, v.now, v.ledgerSeq, key); }
    CarryAccount(v, id, settings, key, d);
  }

  lemma ChargedOnce(ids: seq<nat>, n: nat)
    requires 0 < n <= |ids| && !HasDuplicate(ids)
    ensures ids[n - 1] !in ids[..n - 1]
  {}

  lemma UntouchedSelf(a: Account)
    ensures Untouched(a, a)
  {}

  /** In a batch without duplicates an account is charged at most once. */
  lemma {:induction false} BatchAccount(v: Vault, ids: seq<nat>, keys: Option<seq<nat>>, admin: Option<Admin>, cache: Option<Cache>, n: nat, id: nat)
    requires Inv(v) && n <= |ids| && !HasDuplicate(ids) && id in v.accounts
    ensures var v' := BatchRun(v, ids, keys, admin, cache, n).vault;
            id in v'.accounts && (Untouched(v.accounts[id], v'.accounts[id]) || Settles(v.accounts[id], v'.accounts[id], id, v.cfg, v.now))
  {
    hide ChargeOne, Inv, Settles, Untouched, HasDuplicate;
    UntouchedSelf(v.accounts[id]);
    BatchRunFrame(v, ids, keys, admin, cache, n);
    if n > 0 && id in ids[..n] {
      assert ids[..n] == ids[..n - 1] + [ids[n - 1]];
      BatchRunFrame(v, ids, keys, admin, cache, n - 1);
      BatchRunInv(v, ids, keys, admin, cache, n - 1);
      var b := BatchRun(v, ids, keys, admin, cache, n - 1);
      if ids[n - 1] == id {
        ChargedOnce(ids, n);
        if !b.trapped { ChargeOneAccount(b.vault, id, KeyAt(keys, n - 1), admin, b.cache); }
      } else {
        BatchAccount(v, ids, keys, admin, cache, n - 1, id);
        if !b.trapped { ChargeOneFrame(b.vault, ids[n - 1], KeyAt(keys, n - 1), admin, b.cache); }
      }
    }
  }

  lemma BatchStepAccount(v: Vault, ids: seq<nat>, keys: Option<seq<nat>>, id: nat)
    requires Inv(v) && id in v.accounts
    ensures var v' := KeptFirst(v, BatchCharge(v, ids, keys));
            id in v'.accounts && (Untouched(v.accounts[id], v'.accounts[id]) || Settles(v.accounts[id], v'.accounts[id], id, v.cfg, v.now))
  {
    hide BatchRun, Inv, Settles;
    if !HasDuplicate(ids) { BatchAccount(v, ids, keys, ReadAdmin(v.cfg), Some(map[]), |ids|, id); }
  }

  lemma ChargeStepAccount(v: Vault, charged: nat, key: Option<nat>, id: nat)
    requires Inv(v) && id in v.accounts
    ensures var v' := KeptFirst(v, ChargeSubscription(v, charged, key));
            id in v'.accounts && (Untouched(v.accounts[id], v'.accounts[id]) || Settles(v.accounts[id], v'.accounts[id], id, v.cfg, v.now))
  {
    hide ChargeOne, Inv, Settles;
    ChargeOneFrame(v, charged, key, None, None);
    if charged == id { ChargeOneAccount(v, id, key, None, None); }
  }

  lemma UsageStepAccount(v: Vault, charged: nat, amount: int, reference: string, id: nat)
    requires Inv(v) && id in v.accounts
    ensures var v' := KeptFirst(v, ChargeUsage(v, charged, amount, reference));
            id in v'.accounts && (Tame(v.accounts[id], v'.accounts[id]) || Meters(v.accounts[id], v'.accounts[id], v.now))
  {
    hide ChargeUsage, Inv;
    ChargeUsageFrame(v, charged, amount, reference);
    if charged == id { UsageAccount(v, id, amount, reference); }
  }

  lemma UsageAccount(v: Vault, id: nat, amount: int, reference: string)
    requires Inv(v) && id in v.accounts
    ensures var v' := KeptFirst(v, ChargeUsage(v, id, amount, reference));
            id in v'.accounts && (Tame(v.accounts[id], v'.accounts[id]) || Meters(v.accounts[id], v'.accounts[id], v.now))
  {
    hide Inv, DecideUsage, RecordUsage, AccountInv, PartyObstacle, Credits, Ledger.CreditAll, UsageSettledBy;
    var a := v.accounts[id];
    Known(v, id);
    UsageDecisionFacts(v.cfg, a, v.now, v.ledgerSeq, amount, reference);
    var d := DecideUsage(v.cfg, a, v.now, v.ledgerSeq, amount, reference);
    var v' := KeptFirst(v, ChargeUsage(v, id, amount, reference));
    if d.SettleUsage? && v'.accounts[id] != a { assert MeteredAs(a, v'.accounts[id], v.now, d.metered, d.plan, reference); }
  }

  lemma ChargeCallAccount(v: Vault, op: Op, id: nat)
    requires Inv(v) && id in v.accounts && IsCharge(op)
    ensures id in ChargeStep(v, op).accounts
    ensures var a, a' := v.accounts[id], ChargeStep(v, op).accounts[id];
            && (Tame(a, a') || Settles(a, a', id, v.cfg, v.now) || Meters(a, a', v.now))
            && (!op.MeteredCharge? ==> a'.meter == a.meter && a'.limits == a.limits)
  {
    hide Inv, Settles, Meters, KeptFirst, BatchCharge, ChargeSubscription, ChargeUsage;
    match op {
      case Batch(ids, keys) =>
        BatchStepAccount(v, ids, keys, id);
        SettledMeter(v.accounts[id], ChargeStep(v, op).accounts[id], id, v.cfg, v.now);
      case Charge(charged, key) =>
        ChargeStepAccount(v, charged, key, id);
        SettledMeter(v.accounts[id], ChargeStep(v, op).accounts[id], id, v.cfg, v.now);
      case MeteredCharge(charged, amount, reference) => UsageStepAccount(v, charged, amount, reference, id);
    }
  }

  /** Every call either charges nothing, settles one interval charge, or settles one usage charge;
      only usage charges touch the usage meter. */
  lemma StepAccount(v: Vault, op: Op, id: nat)
    requires Inv(v) && id in v.accounts
    ensures id in Step(v, op).accounts
    ensures var a, a' := v.accounts[id], Step(v, op).accounts[id];
            && (Tame(a, a') || Settles(a, a', id, v.cfg, v.now) || Meters(a, a', v.now))
            && (!op.MeteredCharge? ==> a'.meter == a.meter && a'.limits == a.limits)
  {
    hide Inv, Settles, Meters, ChargeStep, SettingStep, DisputeStep, MerchantStep, CouponStep, SubscriptionStep;
    if IsCharge(op) { ChargeCallAccount(v, op, id); } else { StepFrame(v, op); }
  }

  lemma SettledMeter(a: Account, a': Account, id: nat, cfg: Config, now: nat)
    ensures Settles(a, a', id, cfg, now) ==> a'.meter == a.meter && a'.limits == a.limits
  {
    hide SettledBy, RecordInterval, IdemRing.CheckKey;
    if Settles(a, a', id, cfg, now) {
      var key, p :| SettledAs(a, a', id, cfg, now, key, p);
      RecordIntervalFrame(cfg, a, p, id, now, key);
    }
  }

  // ----- A subscription that is over -----

  lemma OnlyLiveIsCharged(a: Account, a': Account, id: nat, cfg: Config, now: nat)
    requires Settles(a, a', id, cfg, now) || Meters(a, a', now)
    ensures !Terminal(a.sub.status)
  {
    hide RecordInterval, RecordUsage, IdemRing.CheckKey;
  }

  lemma TameJoins(a: Account, b: Account, c: Account)
    requires Tame(a, b) && Tame(b, c)
    ensures Tame(a, c)
  {
    hide Stores;
  }

  lemma {:induction false} TameForGood(v: Vault, ops: seq<Op>, id: nat)
    requires Inv(v) && IdsLast(v, ops) && id in v.accounts && Terminal(v.accounts[id].sub.status)
    ensures id in Run(v, ops).accounts && Tame(v.accounts[id], Run(v, ops).accounts[id])
  {
    hide Inv, Step, Settles, Meters, SameHistory;
    UntouchedSelf(v.accounts[id]);
    if ops != [] {
      var n := |ops| - 1;
      var w := Run(v, ops[..n]);
      TameForGood(v, ops[..n], id);
      RunInv(v, ops[..n]);
      StepAccount(w, ops[n], id);
      var b, c := w.accounts[id], Step(w, ops[n]).accounts[id];
      if Settles(b, c, id, w.cfg, w.now) || Meters(b, c, w.now) {
        OnlyLiveIsCharged(b, c, id, w.cfg, w.now);
        assert false;
      }
      TameJoins(v.accounts[id], b, c);
    }
  }

  /** Billing never restarts: once a subscription is cancelled, expired or archived it stays so
      over every run, a cancelled or archived one stays cancelled or archived, its lifetime total,
      payment clock, periods and numbering never change again, and whatever is called, compaction
      included, its log keeps every history it stores and bills the same total. */
  lemma BillingNeverRestarts(v: Vault, ops: seq<Op>, id: nat)
    requires Inv(v) && IdsLast(v, ops) && id in v.accounts && Terminal(v.accounts[id].sub.status)
    ensures id in Run(v, ops).accounts
    ensures var a, a' := v.accounts[id], Run(v, ops).accounts[id];
            && Terminal(a'.sub.status) && (Ended(a.sub.status) ==> Ended(a'.sub.status))
            && a'.sub.lifetimeCharged == a.sub.lifetimeCharged && a'.sub.lastPayment == a.sub.lastPayment
            && a'.chargedPeriod == a.chargedPeriod && a'.snaps == a.snaps && a'.log.lastSeq == a.log.lastSeq
            && (forall h :: Stores(a.log, h) ==> Stores(a'.log, h))
            && StatementLog.Billed(a'.log) == StatementLog.Billed(a.log)
  {
    hide Inv, Run, Stores, StatementLog.Billed;
    TameForGood(v, ops, id);
    Known(v, id);
    SameBilled(v.accounts[id], Run(v, ops).accounts[id].log, v.now);
  }

  lemma SameBilled(a: Account, log: StatementLog.Log, now: nat)
    requires AccountInv(a, now) && SameHistory(a.log, log)
    ensures StatementLog.Billed(log) == StatementLog.Billed(a.log)
  {
    hide StatementLog.Represents, StatementLog.Billed;
    var h :| BilledBy(a.log, h, a.sub.lifetimeCharged);
    assert Stores(a.log, h);
    assert Stores(log, h);
    StatementLog.BilledIsHistorySum(a.log, h, a.log.agg.prunedCount);
    StatementLog.BilledIsHistorySum(log, h, log.agg.prunedCount);
  }

  // ----- Spacing of interval charges -----

  /** The times at which a run settles interval charges of a subscription: the payment clock of
      the subscription moves at no other time. */
  function ChargeTimes(v: Vault, ops: seq<Op>, id: nat): seq<nat> {
    if ops == [] then []
    else
      var w := Run(v, ops[..|ops| - 1]);
      var w' := Step(w, ops[|ops| - 1]);
      ChargeTimes(v, ops[..|ops| - 1], id)
      + (if id in w.accounts && id in w'.accounts && w'.accounts[id].sub.lastPayment != w.accounts[id].sub.lastPayment then [w.now] else [])
  }

  /** The periods those charges close. */
  function ChargedPeriods(v: Vault, ops: seq<Op>, id: nat): seq<nat> {
    if ops == [] then []
    else
      var w := Run(v, ops[..|ops| - 1]);
      var w' := Step(w, ops[|ops| - 1]);
      ChargedPeriods(v, ops[..|ops| - 1], id)
      + (if id in w.accounts && id in w'.accounts && w'.accounts[id].chargedPeriod != w.accounts[id].chargedPeriod && w'.accounts[id].chargedPeriod.Some?
         then [w'.accounts[id].chargedPeriod.value] else [])
  }

  /** One call: the payment clock stays, or moves to now, at least one interval later. */
  lemma AccountSpacing(a: Account, a': Account, id: nat, cfg: Config, now: nat)
    requires AccountInv(a, now) && (Tame(a, a') || Settles(a, a', id, cfg, now) || Meters(a, a', now))
    ensures SameContract(a.sub, a'.sub)
    ensures a'.sub.lastPayment == a.sub.lastPayment || (a'.sub.lastPayment == now && a.sub.lastPayment + a.sub.interval <= now)
    ensures a'.chargedPeriod == a.chargedPeriod || (a'.chargedPeriod == Some(CurrentPeriod(a.sub, now)) && (a.chargedPeriod.Some? ==> a.chargedPeriod.value < CurrentPeriod(a.sub, now)))
  {
    hide AccountInv, Settles, Meters;
    if Settles(a, a', id, cfg, now) {
      SettledSpacing(a, a', id, cfg, now);
    } else if Meters(a, a', now) {
      MeteredSpacing(a, a', now);
    }
  }

  lemma SettledSpacing(a: Account, a': Account, id: nat, cfg: Config, now: nat)
    requires AccountInv(a, now) && Settles(a, a', id, cfg, now)
    ensures SameContract(a.sub, a'.sub)
    ensures a'.sub.lastPayment == now && a.sub.lastPayment + a.sub.interval <= now
    ensures a'.chargedPeriod == a.chargedPeriod || (a'.chargedPeriod == Some(CurrentPeriod(a.sub, now)) && (a.chargedPeriod.Some? ==> a.chargedPeriod.value < CurrentPeriod(a.sub, now)))
  {
    hide AccountInv, RecordInterval, IdemRing.CheckKey;
    var key, p :| SettledAs(a, a', id, cfg, now, key, p);
    RecordIntervalFrame(cfg, a, p, id, now, key);
    ShapeOf(a, now);
  }

  lemma ShapeOf(a: Account, now: nat)
    requires AccountInv(a, now)
    ensures Shape(a, now)
  {}

  lemma MeteredSpacing(a: Account, a': Account, now: nat)
    requires Meters(a, a', now)
    ensures SameContract(a.sub, a'.sub) && a'.sub.lastPayment == a.sub.lastPayment && a'.chargedPeriod == a.chargedPeriod && a'.idem == a.idem
  {
    hide StatementLog.Append, Snapshots.Write;
    var metered, p, reference :| MeteredAs(a, a', now, metered, p, reference);
  }

  predicate SpacedBy(times: seq<nat>, interval: nat) {
    forall k :: 0 < k < |times| ==> times[k - 1] + interval <= times[k]
  }

  predicate Rising(s: seq<nat>) { forall k :: 0 < k < |s| ==> s[k - 1] < s[k] }

  lemma StepSpacing(v: Vault, op: Op, id: nat)
    requires Inv(v) && id in v.accounts
    ensures id in Step(v, op).accounts
    ensures var a, a', now := v.accounts[id], Step(v, op).accounts[id], v.now;
            && SameContract(a.sub, a'.sub)
            && (a'.sub.lastPayment == a.sub.lastPayment || (a'.sub.lastPayment == now && a.sub.lastPayment + a.sub.interval <= now))
            && (a'.chargedPeriod == a.chargedPeriod || (a'.chargedPeriod == Some(CurrentPeriod(a.sub, now)) && (a.chargedPeriod.Some? ==> a.chargedPeriod.value < CurrentPeriod(a.sub, now))))
  {
    hide Inv, Step, Tame, Settles, Meters;
    Known(v, id);
    StepAccount(v, op, id);
    AccountSpacing(v.accounts[id], Step(v, op).accounts[id], id, v.cfg, v.now);
  }

  /** Settled interval charges of one subscription are at least one interval apart, through any
      run whatsoever. */
  lemma {:induction false} RunSpacing(v: Vault, ops: seq<Op>, id: nat)
    requires Inv(v) && IdsLast(v, ops) && id in v.accounts
    ensures id in Run(v, ops).accounts && SameContract(v.accounts[id].sub, Run(v, ops).accounts[id].sub)
    ensures var a, times := Run(v, ops).accounts[id], [v.accounts[id].sub.lastPayment] + ChargeTimes(v, ops, id);
            SpacedBy(times, a.sub.interval) && a.sub.lastPayment == times[|times| - 1]
  {
    hide Inv, Step, CurrentPeriod;
    if ops != [] {
      var n := |ops| - 1;
      RunSpacing(v, ops[..n], id);
      RunInv(v, ops[..n]);
      StepSpacing(Run(v, ops[..n]), ops[n], id);
      var times := [v.accounts[id].sub.lastPayment] + ChargeTimes(v, ops[..n], id);
      assert [v.accounts[id].sub.lastPayment] + ChargeTimes(v, ops, id) == times + ChargeTimes(v, ops, id)[|times| - 1..];
    }
  }

  /** The periods they close strictly increase. */
  lemma {:induction false} RunPeriods(v: Vault, ops: seq<Op>, id: nat)
    requires Inv(v) && IdsLast(v, ops) && id in v.accounts
    ensures id in Run(v, ops).accounts
    ensures var a, periods := Run(v, ops).accounts[id], ChargedPeriods(v, ops, id);
            && Rising(periods)
            && (if periods == [] then a.chargedPeriod == v.accounts[id].chargedPeriod else a.chargedPeriod == Some(periods[|periods| - 1]))
            && (periods != [] && v.accounts[id].chargedPeriod.Some? ==> v.accounts[id].chargedPeriod.value < periods[0])
  {
    hide Inv, Step, CurrentPeriod, SameContract;
    if ops != [] {
      var n := |ops| - 1;
      RunPeriods(v, ops[..n], id);
      RunInv(v, ops[..n]);
      StepSpacing(Run(v, ops[..n]), ops[n], id);
    }
  }

  lemma {:induction false} SpacedCount(times: seq<nat>, interval: nat)
    requires times != [] && SpacedBy(times, interval)
    ensures times[0] + (|times| - 1) * interval <= times[|times| - 1]
  {
    if |times| > 1 {
      SpacedCount(times[..|times| - 1], interval);
      assert (|times| - 1) * interval == (|times| - 2) * interval + interval;
    }
  }

  lemma CountFromProduct(k: nat, interval: pos, span: int)
    requires k * interval <= span
    ensures k <= span / interval
  {
    ChargeMath.DivMono(k * interval, span, interval);
    ChargeMath.DivUnique(k * interval, interval, k, 0);
  }

  /** By time t at most (t - start) / interval interval charges have been settled. */
  lemma ChargeCount(v: Vault, ops: seq<Op>, id: nat)
    requires Inv(v) && IdsLast(v, ops) && id in v.accounts
    ensures var s := v.accounts[id].sub; |ChargeTimes(v, ops, id)| <= (Run(v, ops).now - s.startTime) / s.interval
  {
    hide Inv, Run, ChargeTimes, SpacedBy;
    var s, times := v.accounts[id].sub, [v.accounts[id].sub.lastPayment] + ChargeTimes(v, ops, id);
    RunSpacing(v, ops, id);
    RunInv(v, ops);
    ClocksInOrder(v, id);
    ClocksInOrder(Run(v, ops), id);
    SpacedCount(times, s.interval);
    CountFromProduct(|ChargeTimes(v, ops, id)|, s.interval, Run(v, ops).now - s.startTime);
  }

  lemma ClocksInOrder(v: Vault, id: nat)
    requires Inv(v) && id in v.accounts
    ensures v.accounts[id].sub.startTime <= v.accounts[id].sub.lastPayment <= v.now
  {
    KnownShape(v, id);
  }

  // ----- Idempotency keys -----

  /** A charge presented with a live key is never settled. */
  lemma LiveKeyNeverSettles(cfg: Config, admin: Admin, a: Account, id: nat, now: nat, ledgerSeq: nat, key: nat)
    requires IdemRing.CheckKey(a.idem, Fingerprint(id, key), now, cfg.idemTtl)
    ensures !DecideInterval(cfg, admin, a, id, now, ledgerSeq, Some(key)).Settle?
  {
    hide IdemRing.CheckKey, ChargeAmount;
    var d := DecideInterval(cfg, admin, a, id, now, ledgerSeq, Some(key));
    if d.Settle? {
      var s := Effective(a.sub, cfg.gracePeriod, now);
      LiveSettles(admin, a, s, id, now, Some(key), cfg.idemTtl, ChargeAmount(cfg, a, now).value);
      ReplaySettles(admin, a, s, id, now, Some(key), cfg.idemTtl, ChargeAmount(cfg, a, now).value);
    }
  }

  /** A scheduled cancellation refunds only once its time has come. */
  lemma RefundIsDue(cfg: Config, admin: Admin, a: Account, id: nat, now: nat, ledgerSeq: nat, key: Option<nat>)
    requires DecideInterval(cfg, admin, a, id, now, ledgerSeq, key).Refund?
    ensures a.sub.cancelAt.Some? && now >= a.sub.cancelAt.value && !Ended(a.sub.status)
  {
    hide IdemRing.CheckKey, ChargeAmount, IsExpired, CapIsReached, CurrentPeriod;
  }

  /** The only tokens that move are the refund of a scheduled cancellation that has come due: the
      whole prepaid balance, paid from the contract's holdings. */
  ghost predicate RefundsAtMost(v: Vault, v': Vault, id: nat)
    requires id in v.accounts && id in v'.accounts
  {
    var a, a' := v.accounts[id], v'.accounts[id];
    var paid := a.sub.prepaid - a'.sub.prepaid;
    && (forall t :: Held(v', t) == Held(v, t) - (if t == a.sub.token then paid else 0))
    && (paid == 0 || (paid == a.sub.prepaid && a.sub.cancelAt.Some? && v.now >= a.sub.cancelAt.value && !Ended(a.sub.status) && a'.sub.status == Cancelled))
  }

  /** What carrying out a decision that settles nothing does. */
  lemma CarryRefunds(v: Vault, id: nat, settings: Admin, key: Option<nat>, d: Decision)
    requires id in v.accounts && !d.Settle? && MovesNothing(v.accounts[id], d) && v.accounts[id].sub.prepaid >= 0
    requires d.Refund? ==> v.accounts[id].sub.cancelAt.Some? && v.now >= v.accounts[id].sub.cancelAt.value && !Ended(v.accounts[id].sub.status)
    ensures var v' := Carry(v, id, settings, key, d).0;
            && v'.ledger == v.ledger && id in v'.accounts
            && v'.accounts[id].log == v.accounts[id].log && v'.accounts[id].sub.lifetimeCharged == v.accounts[id].sub.lifetimeCharged
            && RefundsAtMost(v, v', id)
  {}

  /** So it credits nobody, appends no statement and raises no total; balance and holdings stay
      unless the call carries out a scheduled cancellation. */
  lemma LiveKeyChargesNothing(v: Vault, id: nat, key: nat, admin: Option<Admin>, cache: Option<Cache>)
    requires Inv(v) && id in v.accounts && IdemRing.CheckKey(v.accounts[id].idem, Fingerprint(id, key), v.now, v.cfg.idemTtl)
    ensures var v' := ChargeOne(v, id, Some(key), admin, cache).vault;
            && v'.ledger == v.ledger && id in v'.accounts
            && v'.accounts[id].log == v.accounts[id].log && v'.accounts[id].sub.lifetimeCharged == v.accounts[id].sub.lifetimeCharged
            && RefundsAtMost(v, v', id)
  {
    hide Inv, DecideInterval, PartyObstacle, Carry, MovesNothing, IdemRing.CheckKey;
    var settings, a := if admin.Some? then admin.value else StoredAdmin(v.cfg), v.accounts[id];
    var d := DecideInterval(v.cfg, settings, a, id, v.now, v.ledgerSeq, Some(key));
    KnownShape(v, id);
    LiveKeyNeverSettles(v.cfg, settings, a, id, v.now, v.ledgerSeq, key);
    FinishIsHarmless(v.cfg, settings, a, id, v.now, v.ledgerSeq, Some(key));
    if d.Refund? { RefundIsDue(v.cfg, settings, a, id, v.now, v.ledgerSeq, Some(key)); }
    CarryRefunds(v, id, settings, Some(key), d);
  }

  lemma AccountKeys(a: Account, a': Account, id: nat, cfg: Config, now: nat, e: IdemRing.Entry)
    requires AccountInv(a, now) && (Tame(a, a') || Settles(a, a', id, cfg, now) || Meters(a, a', now))
    requires e in a.idem.entries && IdemRing.Live(e, now, cfg.idemTtl)
    ensures e in a'.idem.entries
  {
    hide AccountInv, Settles, Meters;
    if Settles(a, a', id, cfg, now) {
      SettledKeys(a, a', id, cfg, now, e);
    } else if Meters(a, a', now) {
      MeteredSpacing(a, a', now);
    }
  }

  lemma SettledKeys(a: Account, a': Account, id: nat, cfg: Config, now: nat, e: IdemRing.Entry)
    requires AccountInv(a, now) && Settles(a, a', id, cfg, now)
    requires e in a.idem.entries && IdemRing.Live(e, now, cfg.idemTtl)
    ensures e in a'.idem.entries
  {
    hide AccountInv, StatementLog.Append, Snapshots.Write, SettledBy, IdemRing.CheckKey;
    var key, p :| SettledAs(a, a', id, cfg, now, key, p);
    KeysOf(a, now);
    assert IdemRing.Ordered(a.idem) == a.idem.entries;
    IdemRing.FilterMembers(a.idem.entries, now, cfg.idemTtl, e);
  }

  lemma KeysOf(a: Account, now: nat)
    requires AccountInv(a, now)
    ensures KeysOk(a.idem, now)
  {}

  predicate FixedTtl(v: Vault, ops: seq<Op>) {
    forall i :: 0 <= i < |ops| && ops[i].Reconfigure? ==> ops[i].cfg.idemTtl == v.cfg.idemTtl
  }

  /** A recorded key stays recorded, whatever is called in between, as long as it is live. */
  lemma {:induction false} KeySurvives(v: Vault, ops: seq<Op>, id: nat, e: IdemRing.Entry)
    requires Inv(v) && IdsLast(v, ops) && id in v.accounts && FixedTtl(v, ops)
    requires e in v.accounts[id].idem.entries && IdemRing.Live(e, Run(v, ops).now, v.cfg.idemTtl)
    ensures id in Run(v, ops).accounts && e in Run(v, ops).accounts[id].idem.entries
    ensures Run(v, ops).cfg.idemTtl == v.cfg.idemTtl
  {
    hide Inv, Step, Tame, Settles, Meters;
    if ops != [] {
      var n := |ops| - 1;
      var w := Run(v, ops[..n]);
      RunInv(v, ops[..n]);
      StepFrame(w, ops[n]);
      KeySurvives(v, ops[..n], id, e);
      Known(w, id);
      StepAccount(w, ops[n], id);
      AccountKeys(w.accounts[id], Step(w, ops[n]).accounts[id], id, w.cfg, w.now, e);
    }
  }

  /** A settled charge that reports success has recorded its key. */
  lemma SettledChargeRecordsKey(v: Vault, id: nat, key: nat, admin: Option<Admin>, cache: Option<Cache>)
    requires Inv(v) && id in v.accounts && ChargeOne(v, id, Some(key), admin, cache).result == Ok(Charged)
    requires !IdemRing.CheckKey(v.accounts[id].idem, Fingerprint(id, key), v.now, v.cfg.idemTtl)
    ensures var v' := ChargeOne(v, id, Some(key), admin, cache).vault;
            && id in v'.accounts
            && IdemRing.Entry(Fingerprint(id, key), v.now) in v'.accounts[id].idem.entries
            && v'.accounts[id].log.lastSeq == v.accounts[id].log.lastSeq + 1
            && v'.accounts[id].sub.lastPayment == v.now && v.accounts[id].sub.lastPayment < v.now
  {
    hide DisputesOk, EscrowsOk, CouponsOk, LedgerOk, EachAccount, DecideInterval, PartyObstacle, AccountInv, RecordInterval, IdemRing.CheckKey, SettledBy;
    var settings := if admin.Some? then admin.value else StoredAdmin(v.cfg);
    var a := v.accounts[id];
    Known(v, id);
    var d := DecideInterval(v.cfg, settings, a, id, v.now, v.ledgerSeq, Some(key));
    if d.Settle? {
      SettleGuards(v.cfg, settings, a, id, v.now, v.ledgerSeq, Some(key));
      RecordIntervalSuccess(v.cfg, a, d.plan, id, v.now, Some(key));
      DebitMovesClock(a, d.plan, v.now);
    } else {
      OnlyReplayIsCharged(v.cfg, settings, a, id, v.now, v.ledgerSeq, key);
    }
  }

  lemma DebitMovesClock(a: Account, p: Plan, now: nat)
    requires AccountInv(a, now) && SettledBy(a, p, now)
    ensures Debited(p, now).lastPayment == now && a.sub.lastPayment < now
  {
    hide Billing, PeriodsOk, KeysOk;
  }

  /** Without moving money, "charged" is reported only for a key already used. */
  lemma OnlyReplayIsCharged(cfg: Config, admin: Admin, a: Account, id: nat, now: nat, ledgerSeq: nat, key: nat)
    requires var d := DecideInterval(cfg, admin, a, id, now, ledgerSeq, Some(key)); d.Finish? && d.result == Ok(Charged)
    ensures IdemRing.CheckKey(a.idem, Fingerprint(id, key), now, cfg.idemTtl)
  {
    hide IdemRing.CheckKey, ChargeAmount, IsExpired, CapIsReached;
  }

  /** What a charge presented with a live key can do at most. */
  ghost predicate ChargesNothing(w: Vault, w': Vault, id: nat) {
    && id in w.accounts && id in w'.accounts && w'.ledger == w.ledger
    && w'.accounts[id].log == w.accounts[id].log && w'.accounts[id].sub.lifetimeCharged == w.accounts[id].sub.lifetimeCharged
    && RefundsAtMost(w, w', id)
  }

  /** Once a key is recorded, whatever runs and while it lives, presenting it again charges nothing. */
  lemma RecordedThenRetry(v: Vault, id: nat, key: nat, at: nat, ops: seq<Op>, admin: Option<Admin>, cache: Option<Cache>)
    requires Inv(v) && id in v.accounts && IdsLast(v, ops) && FixedTtl(v, ops)
    requires IdemRing.Entry(Fingerprint(id, key), at) in v.accounts[id].idem.entries
    requires IdemRing.Live(IdemRing.Entry(Fingerprint(id, key), at), Run(v, ops).now, v.cfg.idemTtl)
    ensures ChargesNothing(Run(v, ops), ChargeOne(Run(v, ops), id, Some(key), admin, cache).vault, id)
  {
    hide Inv, ChargeOne, IdemRing.CheckKey, IdemRing.Live, RefundsAtMost;
    var e := IdemRing.Entry(Fingerprint(id, key), at);
    KeySurvives(v, ops, id, e);
    RunInv(v, ops);
    RecordedIsChecked(Run(v, ops).accounts[id].idem, e, Run(v, ops).now, v.cfg.idemTtl);
    LiveKeyChargesNothing(Run(v, ops), id, key, admin, cache);
  }

  /** At most once: after a settled charge with a key, any later charge presented with the same
      key while it lives credits nobody, appends no statement and takes nothing out of the prepaid
      balance but a due cancellation's refund, whatever ran in between. */
  lemma ChargeThenRetry(v: Vault, id: nat, key: nat, ops: seq<Op>, admin: Option<Admin>, cache: Option<Cache>)
    requires Inv(v) && id in v.accounts && ChargeOne(v, id, Some(key), None, None).result == Ok(Charged)
    requires !IdemRing.CheckKey(v.accounts[id].idem, Fingerprint(id, key), v.now, v.cfg.idemTtl)
    requires IdsLast(v, ops)
    requires var v1 := Step(v, Charge(id, Some(key)));
             FixedTtl(v1, ops) && IdemRing.Live(IdemRing.Entry(Fingerprint(id, key), v.now), Run(v1, ops).now, v.cfg.idemTtl)
    ensures var w := Run(Step(v, Charge(id, Some(key))), ops); ChargesNothing(w, ChargeOne(w, id, Some(key), admin, cache).vault, id)
  {
    hide Inv, ChargeOne, IdemRing.CheckKey, IdemRing.Live, ChargesNothing;
    SettledChargeRecordsKey(v, id, key, None, None);
    ChargeInv(v, id, Some(key));
    ChargeOneFrame(v, id, Some(key), None, None);
    RecordedThenRetry(Step(v, Charge(id, Some(key))), id, key, v.now, ops, admin, cache);
  }

  // ----- Items of a batch -----

  /** What an item of a batch comes to. */
  function ItemOutcome(v: Vault, ids: seq<nat>, keys: Option<seq<nat>>, k: nat): Result<Outcome>
    requires k < |ids|
  {
    var b := BatchRun(v, ids, keys, ReadAdmin(v.cfg), Some(map[]), k);
    ChargeOne(b.vault, ids[k], KeyAt(keys, k), ReadAdmin(v.cfg), b.cache).result
  }

  /** It is what the batch reports for the item. */
  lemma {:induction false} OutcomeIsReported(v: Vault, ids: seq<nat>, keys: Option<seq<nat>>, n: nat, k: nat)
    requires k < n <= |ids| && !BatchRun(v, ids, keys, ReadAdmin(v.cfg), Some(map[]), n).trapped
    ensures var results := BatchRun(v, ids, keys, ReadAdmin(v.cfg), Some(map[]), n).results;
            |results| == n && results[k] == ToItem(ids[k], ItemOutcome(v, ids, keys, k))
  {
    hide ChargeOne;
    if k < n - 1 { OutcomeIsReported(v, ids, keys, n - 1, k); } else if n > 1 { OutcomeIsReported(v, ids, keys, n - 1, 0); }
  }

  lemma DifferentItems(ids: seq<nat>, i: nat, j: nat)
    requires i < j < |ids| && !HasDuplicate(ids)
    ensures ids[i] != ids[j]
  {}

  /** Later items leave the subscription of an item alone. */
  lemma {:induction false} LaterItems(v: Vault, ids: seq<nat>, keys: Option<seq<nat>>, admin: Option<Admin>, cache: Option<Cache>, k: nat, n: nat)
    requires k < n <= |ids| && !HasDuplicate(ids) && ids[k] in v.accounts
    ensures ids[k] in BatchRun(v, ids, keys, admin, cache, k + 1).vault.accounts && ids[k] in BatchRun(v, ids, keys, admin, cache, n).vault.accounts
    ensures BatchRun(v, ids, keys, admin, cache, n).vault.accounts[ids[k]] == BatchRun(v, ids, keys, admin, cache, k + 1).vault.accounts[ids[k]]
  {
    hide ChargeOne, HasDuplicate;
    BatchRunFrame(v, ids, keys, admin, cache, k + 1);
    if k + 1 < n {
      LaterItems(v, ids, keys, admin, cache, k, n - 1);
      var b := BatchRun(v, ids, keys, admin, cache, n - 1);
      DifferentItems(ids, k, n - 1);
      ChargeOneFrame(b.vault, ids[n - 1], KeyAt(keys, n - 1), admin, b.cache);
    }
  }

  /** After a batch that went through, an item's subscription is as that item left it. */
  lemma BatchItem(v: Vault, ids: seq<nat>, keys: Option<seq<nat>>, k: nat)
    requires k < |ids| && ids[k] in v.accounts && BatchCharge(v, ids, keys).Ok?
    ensures var b := BatchRun(v, ids, keys, ReadAdmin(v.cfg), Some(map[]), k);
            var item := ChargeOne(b.vault, ids[k], KeyAt(keys, k), ReadAdmin(v.cfg), b.cache).vault;
            && b.vault == v.(accounts := b.vault.accounts, ledger := b.vault.ledger, held := b.vault.held)
            && ids[k] in b.vault.accounts && b.vault.accounts[ids[k]] == v.accounts[ids[k]]
            && ids[k] in item.accounts && ids[k] in BatchCharge(v, ids, keys).value.0.accounts
            && BatchCharge(v, ids, keys).value.0.accounts[ids[k]] == item.accounts[ids[k]]
  {
    hide ChargeOne, BatchRun, HasDuplicate;
    assert ids[k] !in ids[..k] by { ChargedOnce(ids, k + 1); }
    BatchRunFrame(v, ids, keys, ReadAdmin(v.cfg), Some(map[]), k);
    LaterItems(v, ids, keys, ReadAdmin(v.cfg), Some(map[]), k, |ids|);
    NotTrappedBefore(v, ids, keys, ReadAdmin(v.cfg), Some(map[]), k, |ids|);
    OneItem(v, ids, keys, ReadAdmin(v.cfg), Some(map[]), k);
  }

  lemma OneItem(v: Vault, ids: seq<nat>, keys: Option<seq<nat>>, admin: Option<Admin>, cache: Option<Cache>, k: nat)
    requires k < |ids| && !BatchRun(v, ids, keys, admin, cache, k).trapped
    ensures var b := BatchRun(v, ids, keys, admin, cache, k);
            BatchRun(v, ids, keys, admin, cache, k + 1).vault == ChargeOne(b.vault, ids[k], KeyAt(keys, k), admin, b.cache).vault
  {
    hide ChargeOne;
  }

  lemma {:induction false} NotTrappedBefore(v: Vault, ids: seq<nat>, keys: Option<seq<nat>>, admin: Option<Admin>, cache: Option<Cache>, k: nat, n: nat)
    requires k <= n <= |ids| && !BatchRun(v, ids, keys, admin, cache, n).trapped
    ensures !BatchRun(v, ids, keys, admin, cache, k).trapped
  {
    hide ChargeOne;
    if k < n { NotTrappedBefore(v, ids, keys, admin, cache, k, n - 1); }
  }

  /** The same when the first charge was an item of a batch. */
  lemma BatchThenRetry(v: Vault, ids: seq<nat>, keys: seq<nat>, k: nat, ops: seq<Op>, admin: Option<Admin>, cache: Option<Cache>)
    requires Inv(v) && k < |ids| && ids[k] in v.accounts && BatchCharge(v, ids, Some(keys)).Ok?
    requires ItemOutcome(v, ids, Some(keys), k) == Ok(Charged)
    requires k < |keys| && !IdemRing.CheckKey(v.accounts[ids[k]].idem, Fingerprint(ids[k], keys[k]), v.now, v.cfg.idemTtl)
    requires IdsLast(v, ops)
    requires var v1 := Step(v, Batch(ids, Some(keys)));
             FixedTtl(v1, ops) && IdemRing.Live(IdemRing.Entry(Fingerprint(ids[k], keys[k]), v.now), Run(v1, ops).now, v.cfg.idemTtl)
    ensures var w := Run(Step(v, Batch(ids, Some(keys))), ops); ChargesNothing(w, ChargeOne(w, ids[k], Some(keys[k]), admin, cache).vault, ids[k])
  {
    hide Inv, ChargeOne, BatchRun, BatchCharge, IdemRing.CheckKey, IdemRing.Live, ChargesNothing;
    var b := BatchRun(v, ids, Some(keys), ReadAdmin(v.cfg), Some(map[]), k);
    BatchRunInv(v, ids, Some(keys), ReadAdmin(v.cfg), Some(map[]), k);
    BatchItem(v, ids, Some(keys), k);
    SettledChargeRecordsKey(b.vault, ids[k], keys[k], ReadAdmin(v.cfg), b.cache);
    BatchInv(v, ids, Some(keys));
    BatchCharges(v, ids, Some(keys));
    RecordedThenRetry(Step(v, Batch(ids, Some(keys))), ids[k], keys[k], v.now, ops, admin, cache);
  }

  lemma RecordedIsChecked(b: IdemRing.Buffer, e: IdemRing.Entry, now: nat, ttl: nat)
    requires e in b.entries && IdemRing.Live(e, now, ttl)
    ensures IdemRing.CheckKey(b, e.key, now, ttl)
  {}
}
