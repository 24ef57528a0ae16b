/** Underfunded charges over whole runs: when automatic pause happens, that a grace period keeps
    it from ever happening, and what is left to a subscription whose grace has run out. */
module VaultGrace {
  import opened Base
  import opened StateMachine
  import opened Accounts
  import opened AccountLaws
  import opened Vault
  import opened VaultFrames
  import opened VaultTraces
  import IdemRing
  import Ledger
  import Snapshots
  import StatementLog
  import UsageMeter

  // ----- No grace period: the threshold -----

  /** A charge that goes through and reports an underfunded subscription, alone or in a batch. */
  predicate Underfunds(v: Vault, op: Op, id: nat) {
    || (op.Charge? && op.id == id && ChargeOne(v, id, op.key, None, None).result == Ok(Underfunded))
    || (op.Batch? && BatchCharge(v, op.ids, op.keys).Ok? && exists k :: 0 <= k < |op.ids| && op.ids[k] == id && ItemOutcome(v, op.ids, op.keys, k) == Ok(Underfunded))
  }

  /** Time passes or other subscriptions are charged. */
  predicate Elsewhere(op: Op, id: nat) {
    || op.Tick?
    || (op.Charge? && op.id != id)
    || (op.Batch? && id !in op.ids)
    || (op.MeteredCharge? && op.id != id)
  }

  /** One charge of a subscription after another is underfunded, with any others in between. */
  predicate FailingRun(v: Vault, ops: seq<Op>, id: nat) {
    ops != [] ==>
      var w, op := Run(v, ops[..|ops| - 1]), ops[|ops| - 1];
      FailingRun(v, ops[..|ops| - 1], id) && (Elsewhere(op, id) || Underfunds(w, op, id))
  }

  function Attempts(ops: seq<Op>, id: nat): nat {
    if ops == [] then 0 else Attempts(ops[..|ops| - 1], id) + (if Elsewhere(ops[|ops| - 1], id) then 0 else 1)
  }

  lemma UnderfundedCharge(v: Vault, id: nat, key: Option<nat>, admin: Option<Admin>, cache: Option<Cache>)
    requires ChargeOne(v, id, key, admin, cache).result == Ok(Underfunded) && admin in {None, ReadAdmin(v.cfg)}
    ensures id in v.accounts
    ensures var a := v.accounts[id]; var s := Effective(a.sub, v.cfg.gracePeriod, v.now);
            && s.status in {Active, GracePeriod, InsufficientFunds}
            && DecideUnderfunded(StoredAdmin(v.cfg), a, s, v.now).Finish?
            && ChargeOne(v, id, key, admin, cache).vault == SetAccount(v, id, DecideUnderfunded(StoredAdmin(v.cfg), a, s, v.now).account)
  {
    hide DecideInterval, DecideUnderfunded, PartyObstacle, Credits, Ledger.CreditAll, RecordInterval;
    var a := v.accounts[id];
    var d := DecideInterval(v.cfg, StoredAdmin(v.cfg), a, id, v.now, v.ledgerSeq, key);
    if d.Settle? { NeverUnderfunded(v.cfg, a, d.plan, id, v.now, key); }
    UnderfundedIsLive(v.cfg, StoredAdmin(v.cfg), a, id, v.now, v.ledgerSeq, key);
  }

  lemma NeverUnderfunded(cfg: Config, a: Account, p: Plan, id: nat, now: nat, key: Option<nat>)
    ensures RecordInterval(cfg, a, p, id, now, key).1 != Ok(Underfunded)
  {
    hide StatementLog.Append, Snapshots.Write, IdemRing.PushKey;
  }

  lemma StepIsCharge(v: Vault, op: Op)
    ensures op.Charge? ==> Step(v, op) == KeptFirst(v, ChargeSubscription(v, op.id, op.key))
    ensures op.Tick? ==> Step(v, op) == Advance(v, op.seconds, op.ledgers)
    ensures op.Batch? ==> Step(v, op) == KeptFirst(v, BatchCharge(v, op.ids, op.keys))
    ensures op.MeteredCharge? ==> Step(v, op) == KeptFirst(v, ChargeUsage(v, op.id, op.amount, op.reference))
  {
    hide BatchCharge, ChargeSubscription, ChargeUsage;
  }

  /** What an underfunded charge does to the subscription, and that the configuration stays. */
  lemma UnderfundedStep(v: Vault, op: Op, id: nat)
    requires id in v.accounts && Underfunds(v, op, id)
    ensures Step(v, op).cfg == v.cfg && id in Step(v, op).accounts
    ensures var a := v.accounts[id]; var d := DecideUnderfunded(StoredAdmin(v.cfg), a, Effective(a.sub, v.cfg.gracePeriod, v.now), v.now);
            d.Finish? && Step(v, op).accounts[id] == d.account
  {
    hide Step, ChargeOne, BatchRun, BatchCharge, DecideUnderfunded, Effective;
    StepIsCharge(v, op);
    if op.Charge? {
      UnderfundedCharge(v, id, op.key, None, None);
    } else {
      var k :| 0 <= k < |op.ids| && op.ids[k] == id && ItemOutcome(v, op.ids, op.keys, k) == Ok(Underfunded);
      var b := BatchRun(v, op.ids, op.keys, ReadAdmin(v.cfg), Some(map[]), k);
      BatchItem(v, op.ids, op.keys, k);
      UnderfundedCharge(b.vault, id, KeyAt(op.keys, k), ReadAdmin(v.cfg), b.cache);
      BatchKeepsConfig(v, op.ids, op.keys);
    }
  }

  lemma BatchKeepsConfig(v: Vault, ids: seq<nat>, keys: Option<seq<nat>>)
    ensures KeptFirst(v, BatchCharge(v, ids, keys)).cfg == v.cfg
  {
    hide BatchRun, HasDuplicate;
    BatchRunFrame(v, ids, keys, ReadAdmin(v.cfg), Some(map[]), |ids|);
  }

  lemma ElsewhereStep(v: Vault, op: Op, id: nat)
    requires id in v.accounts && Elsewhere(op, id)
    ensures Step(v, op).cfg == v.cfg && id in Step(v, op).accounts && Step(v, op).accounts[id] == v.accounts[id]
  {
    hide Step, ChargeOne, BatchRun, ChargeUsage, HasDuplicate;
    StepIsCharge(v, op);
    match op {
      case Tick(_, _) =>
      case Charge(charged, key) => ChargeOneFrame(v, charged, key, None, None);
      case Batch(ids, keys) =>
        assert ids[..|ids|] == ids;
        BatchRunFrame(v, ids, keys, ReadAdmin(v.cfg), Some(map[]), |ids|);
      case MeteredCharge(charged, amount, reference) => ChargeUsageFrame(v, charged, amount, reference);
    }
  }

  /** The n-th consecutive underfunded charge, single or in a batch, pauses exactly when the count of
      failures reaches the threshold: before that each one is counted, and after it there is none. */
  lemma {:induction false} RunPausesAtThreshold(v: Vault, ops: seq<Op>, id: nat)
    requires id in v.accounts && v.accounts[id].sub.status in {Active, InsufficientFunds}
    requires v.cfg.gracePeriod == Some(0) && 0 < v.cfg.autoPause <= U32_MAX && FailingRun(v, ops, id)
    ensures Run(v, ops).cfg == v.cfg && id in Run(v, ops).accounts
    ensures var a, b, n := v.accounts[id], Run(v, ops).accounts[id], Attempts(ops, id);
            var needed := Max(1, v.cfg.autoPause - a.failures);
            && n <= needed && SameStores(a, b) && b.sub.prepaid == a.sub.prepaid
            && (n == 0 ==> b == a)
            && (0 < n < needed ==> b.sub.status == InsufficientFunds && b.failures == a.failures + n)
            && (n == needed ==> b.sub.status == Paused && b.failures == 0)
  {
    hide Step, Effective, Underfunds;
    if ops != [] {
      var n := |ops| - 1;
      var w, op := Run(v, ops[..n]), ops[n];
      RunPausesAtThreshold(v, ops[..n], id);
      if Elsewhere(op, id) {
        ElsewhereStep(w, op, id);
      } else {
        UnderfundedStep(w, op, id);
        StillLive(w, op, id);
        NotInGrace(w.accounts[id].sub, w.cfg.gracePeriod, w.now);
        FailureIsCounted(StoredAdmin(w.cfg), w.accounts[id], w.accounts[id].sub, w.now);
      }
    }
  }

  /** Only a live subscription is reported as underfunded. */
  lemma StillLive(v: Vault, op: Op, id: nat)
    requires id in v.accounts && Underfunds(v, op, id)
    ensures Effective(v.accounts[id].sub, v.cfg.gracePeriod, v.now).status in {Active, GracePeriod, InsufficientFunds}
  {
    hide ChargeOne, BatchRun, BatchCharge, DecideUnderfunded, Effective;
    if op.Charge? {
      UnderfundedCharge(v, id, op.key, None, None);
    } else {
      var k :| 0 <= k < |op.ids| && op.ids[k] == id && ItemOutcome(v, op.ids, op.keys, k) == Ok(Underfunded);
      var b := BatchRun(v, op.ids, op.keys, ReadAdmin(v.cfg), Some(map[]), k);
      BatchItem(v, op.ids, op.keys, k);
      UnderfundedCharge(b.vault, id, KeyAt(op.keys, k), ReadAdmin(v.cfg), b.cache);
    }
  }

  lemma NotInGrace(s: Subscription, gracePeriod: Option<nat>, now: nat)
    requires s.status != GracePeriod
    ensures Effective(s, gracePeriod, now) == s
  {}

  // ----- A grace period: no failure counts -----

  predicate HasGrace(cfg: Config) { cfg.gracePeriod.Some? && cfg.gracePeriod.value > 0 }

  /** The counter of failures is not raised and the subscription is not paused. */
  predicate NotCounted(a: Account, b: Account) {
    b.failures in {a.failures, 0} && (b.sub.status == Paused ==> a.sub.status == Paused)
  }

  lemma RecordNotCounted(cfg: Config, a: Account, p: Plan, id: nat, now: nat, key: Option<nat>)
    requires p.sub.status != Paused
    ensures NotCounted(a, RecordInterval(cfg, a, p, id, now, key).0)
  {
    hide StatementLog.Append, Snapshots.Write, IdemRing.PushKey;
  }

  lemma CarryNotCounted(v: Vault, id: nat, settings: Admin, key: Option<nat>, d: Decision)
    requires id in v.accounts
    requires d.Finish? ==> NotCounted(v.accounts[id], d.account)
    requires d.Refund? ==> NotCounted(v.accounts[id], d.refunded)
    requires d.Settle? ==> d.plan.sub.status != Paused
    ensures var v' := Carry(v, id, settings, key, d).0; id in v'.accounts && NotCounted(v.accounts[id], v'.accounts[id])
  {
    hide Credits, Ledger.CreditAll, RecordInterval;
    if d.Settle? { RecordNotCounted(v.cfg, v.accounts[id], d.plan, id, v.now, key); }
  }

  lemma SettlesUnpaused(cfg: Config, admin: Admin, a: Account, id: nat, now: nat, ledgerSeq: nat, key: Option<nat>)
    ensures var d := DecideInterval(cfg, admin, a, id, now, ledgerSeq, key); d.Settle? ==> d.plan.sub.status != Paused
  {
    hide IdemRing.CheckKey, ChargeAmount, IsExpired, CapIsReached, UsageMeter.PeriodAt;
  }

  lemma ChargeNotCounted(v: Vault, id: nat, key: Option<nat>, admin: Option<Admin>, cache: Option<Cache>)
    requires HasGrace(v.cfg) && id in v.accounts && admin in {None, ReadAdmin(v.cfg)}
    ensures var v' := ChargeOne(v, id, key, admin, cache).vault; id in v'.accounts && NotCounted(v.accounts[id], v'.accounts[id])
  {
    hide DecideInterval, PartyObstacle, Carry;
    var a, settings := v.accounts[id], StoredAdmin(v.cfg);
    GraceNeverCounts(v.cfg, settings, a, id, v.now, v.ledgerSeq, key);
    SettlesUnpaused(v.cfg, settings, a, id, v.now, v.ledgerSeq, key);
    CarryNotCounted(v, id, settings, key, DecideInterval(v.cfg, settings, a, id, v.now, v.ledgerSeq, key));
  }

  lemma {:induction false} BatchNotCounted(v: Vault, ids: seq<nat>, keys: Option<seq<nat>>, cache: Option<Cache>, n: nat, id: nat)
    requires HasGrace(v.cfg) && id in v.accounts && n <= |ids|
    ensures var v' := BatchRun(v, ids, keys, ReadAdmin(v.cfg), cache, n).vault;
            v'.cfg == v.cfg && id in v'.accounts && NotCounted(v.accounts[id], v'.accounts[id])
  {
    hide ChargeOne;
    if n > 0 {
      BatchNotCounted(v, ids, keys, cache, n - 1, id);
      var b := BatchRun(v, ids, keys, ReadAdmin(v.cfg), cache, n - 1);
      ChargeOneFrame(b.vault, ids[n - 1], KeyAt(keys, n - 1), ReadAdmin(v.cfg), b.cache);
      if ids[n - 1] == id { ChargeNotCounted(b.vault, id, KeyAt(keys, n - 1), ReadAdmin(v.cfg), b.cache); }
    }
  }

  lemma UsageDecisionNotCounted(cfg: Config, a: Account, now: nat, ledgerSeq: nat, amount: int, reference: string)
    ensures var d := DecideUsage(cfg, a, now, ledgerSeq, amount, reference);
            && (d.FinishUsage? ==> NotCounted(a, d.account))
            && (d.SettleUsage? ==> d.metered.failures == a.failures && d.plan.sub.status == Active)
  {
    hide UsageMeter.Admit, UsageMeter.PeriodAt, IsExpired, Effective, CapIsReached;
  }

  lemma RecordUsageNotCounted(metered: Account, p: Plan, now: nat, reference: string)
    requires p.sub.status == Active && RecordUsage(metered, p, now, reference).Ok?
    ensures var b := RecordUsage(metered, p, now, reference).value; b.failures == metered.failures && b.sub.status != Paused
  {
    hide StatementLog.Append, Snapshots.Write;
  }

  lemma UsageNotCounted(v: Vault, charged: nat, amount: int, reference: string, id: nat)
    requires id in v.accounts
    ensures var v' := KeptFirst(v, ChargeUsage(v, charged, amount, reference)); id in v'.accounts && NotCounted(v.accounts[id], v'.accounts[id])
  {
    hide PartyObstacle, Credits, Ledger.CreditAll, DecideUsage, RecordUsage, ProductsFit;
    if ChargeUsage(v, charged, amount, reference).Ok? {
      UsageDecisionNotCounted(v.cfg, v.accounts[charged], v.now, v.ledgerSeq, amount, reference);
      var d := DecideUsage(v.cfg, v.accounts[charged], v.now, v.ledgerSeq, amount, reference);
      if d.SettleUsage? { RecordUsageNotCounted(d.metered, d.plan, v.now, reference); }
    }
  }

  lemma StepNotCounted(v: Vault, op: Op, id: nat)
    requires HasGrace(v.cfg) && id in v.accounts && (IsCharge(op) || op.Tick?)
    ensures Step(v, op).cfg == v.cfg && id in Step(v, op).accounts && NotCounted(v.accounts[id], Step(v, op).accounts[id])
  {
    hide Step, ChargeOne, BatchRun, ChargeUsage, HasDuplicate;
    StepIsCharge(v, op);
    match op {
      case Tick(_, _) =>
      case Charge(charged, key) =>
        ChargeOneFrame(v, charged, key, None, None);
        if charged == id { ChargeNotCounted(v, id, key, None, None); }
      case Batch(ids, keys) => BatchNotCounted(v, ids, keys, Some(map[]), |ids|, id);
      case MeteredCharge(charged, amount, reference) =>
        ChargeUsageFrame(v, charged, amount, reference);
        UsageNotCounted(v, charged, amount, reference, id);
    }
  }

  /** With a positive grace period automatic pause never happens: no mix of interval, batch and
      usage charges, at whatever times, pauses a subscription or raises its count of failures. */
  lemma {:induction false} RunNeverPauses(v: Vault, ops: seq<Op>, id: nat)
    requires HasGrace(v.cfg) && id in v.accounts && forall i :: 0 <= i < |ops| ==> IsCharge(ops[i]) || ops[i].Tick?
    ensures Run(v, ops).cfg == v.cfg && id in Run(v, ops).accounts && NotCounted(v.accounts[id], Run(v, ops).accounts[id])
  {
    hide Step;
    if ops != [] {
      var n := |ops| - 1;
      RunNeverPauses(v, ops[..n], id);
      StepNotCounted(Run(v, ops[..n]), ops[n], id);
    }
  }

  // ----- After grace -----

  /** Once grace has run out, an underfunded charge that does not end the subscription is refused
      or skipped and leaves the whole contract as it was: nothing is demoted, counted or paused,
      and only a balance that covers the charge gets the subscription going again. */
  lemma GraceOverNeedsFunds(v: Vault, id: nat, key: Option<nat>, admin: Option<Admin>, cache: Option<Cache>)
    requires HasGrace(v.cfg) && id in v.accounts && admin in {None, ReadAdmin(v.cfg)}
    requires EffectiveSub(v, id).status == InsufficientFunds
    requires var s := EffectiveSub(v, id); !IsExpired(s, v.now, v.ledgerSeq) && !CapIsReached(s) && (s.cancelAt.Some? ==> v.now < s.cancelAt.value)
    requires var amount := ChargeAmount(v.cfg, v.accounts[id], v.now); var s := EffectiveSub(v, id);
             amount.Ok? ==> s.prepaid < amount.value && (s.lifetimeCap.Some? ==> amount.value <= s.lifetimeCap.value - s.lifetimeCharged)
    ensures var c := ChargeOne(v, id, key, admin, cache);
            c.vault == v && (c.result.Err? || c.result == Ok(Skipped) || (c.result == Ok(Charged) && key.Some? && IdemRing.CheckKey(v.accounts[id].idem, Fingerprint(id, key.value), v.now, v.cfg.idemTtl)))
  {
    hide DecideInterval, PartyObstacle;
    GraceOverDecision(v.cfg, StoredAdmin(v.cfg), v.accounts[id], id, v.now, v.ledgerSeq, key);
    assert v.accounts[id := v.accounts[id]] == v.accounts;
  }

  lemma GraceOverDecision(cfg: Config, admin: Admin, a: Account, id: nat, now: nat, ledgerSeq: nat, key: Option<nat>)
    requires HasGrace(cfg) && admin.gracePeriod == cfg.gracePeriod
    requires var s := Effective(a.sub, cfg.gracePeriod, now);
             s.status == InsufficientFunds && !IsExpired(s, now, ledgerSeq) && !CapIsReached(s) && (s.cancelAt.Some? ==> now < s.cancelAt.value)
    requires var amount := ChargeAmount(cfg, a, now); var s := Effective(a.sub, cfg.gracePeriod, now);
             amount.Ok? ==> s.prepaid < amount.value && (s.lifetimeCap.Some? ==> amount.value <= s.lifetimeCap.value - s.lifetimeCharged)
    ensures var d := DecideInterval(cfg, admin, a, id, now, ledgerSeq, key);
            && d.Finish? && d.account == a
            && (d.result.Err? || d.result == Ok(Skipped) || (d.result == Ok(Charged) && key.Some? && IdemRing.CheckKey(a.idem, Fingerprint(id, key.value), now, cfg.idemTtl)))
  {
    hide IdemRing.CheckKey, ChargeAmount, IsExpired, CapIsReached, UsageMeter.PeriodAt, Effective;
  }
}
