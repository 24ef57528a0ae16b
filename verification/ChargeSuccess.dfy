/** When a payment that is due goes through, and what a batch does for each of its items. */
module ChargeSuccess {
  import opened Base
  import opened StateMachine
  import opened Accounts
  import opened AccountLaws
  import opened Vault
  import opened VaultTotals
  import opened VaultInvariant
  import opened VaultFrames
  import opened VaultTraces
  import opened ChargeEffects
  import B = VaultBatches
  import ChargeMath
  import StatementLog
  import Snapshots
  import IdemRing
  import UsageMeter
  import Ledger

  /** Every party's accrual of the kind has room for what it gets. */
  ghost predicate AccrualsHaveRoom(l: Ledger.Ledger, a: Account, kind: StatementLog.Kind, amount: int, feeBps: nat, treasury: Option<nat>) {
    forall who :: AccrualAfter(l, a, kind, amount, feeBps, treasury, who) <= I128_MAX
  }

  function AccrualAfter(l: Ledger.Ledger, a: Account, kind: StatementLog.Kind, amount: int, feeBps: nat, treasury: Option<nat>, who: nat): int {
    var e := Ledger.EarningsOf(l, who, a.sub.token);
    (if kind.Interval? then e.interval else e.usage) + Gets(a.split, a.sub.merchant, amount, feeBps, treasury, who)
  }

  /** The records of the subscription have room: a statement number, the period's totals and, with a
      key, one of the 64 places. */
  predicate RecordsHaveRoom(a: Account, now: nat, amount: int, units: int)
  {
    && a.sub.lifetimeCharged + amount <= I128_MAX
    && a.log.lastSeq < U32_MAX
    && InI128(ChargedIn(a.snaps, CurrentPeriod(a.sub, now)) + amount) && InI128(UnitsIn(a.snaps, CurrentPeriod(a.sub, now)) + units)
  }

  lemma GetsNothing(credits: seq<(nat, int)>, who: nat)
    requires Ledger.NonNegativeCredits(credits) && forall i :: 0 <= i < |credits| ==> credits[i].0 != who
    ensures Ledger.CreditedTo(credits, who) == 0
  {
    Ledger.CreditedToBounds(credits, who);
  }

  lemma NoFeeOfNothing(amount: nat, feeBps: nat, treasury: Option<nat>)
    ensures Fee(amount, feeBps, treasury) == 0 <==> feeBps == 0 || treasury.None?
  {}

  /** The credits of a positive amount fit exactly when all accruals have room. */
  lemma FitIffRoom(l: Ledger.Ledger, a: Account, kind: StatementLog.Kind, amount: nat, feeBps: nat, treasury: Option<nat>)
    requires ValidSplit(a.split) && feeBps <= 10_000 && LedgerOk(l) && !kind.OneOff?
    requires amount > 0 || Fee(amount, feeBps, treasury) == 0
    ensures Ledger.AccrualsFit(l, Credits(a, a.sub.merchant, amount, feeBps, treasury), a.sub.token, kind) <==> AccrualsHaveRoom(l, a, kind, amount, feeBps, treasury)
  {
    NoFeeOfNothing(amount, feeBps, treasury);
    hide Credits, ValidSplit, Gets, Ledger.CreditedTo, Ledger.NonNegativeCredits, Ledger.SumCredits, Fee;
    var credits := Credits(a, a.sub.merchant, amount, feeBps, treasury);
    if amount > 0 { FeeWithinAmount(amount, feeBps, treasury); }
    CreditsSum(a, a.sub.merchant, amount, feeBps, treasury);
    forall who
      ensures Ledger.CreditedTo(credits, who) == Gets(a.split, a.sub.merchant, amount, feeBps, treasury, who)
      ensures (forall i :: 0 <= i < |credits| ==> credits[i].0 != who) ==> Ledger.CreditedTo(credits, who) == 0
    {
      CreditsAreGets(a, a.sub.merchant, amount, feeBps, treasury, who);
      if forall i :: 0 <= i < |credits| ==> credits[i].0 != who { GetsNothing(credits, who); }
    }
    if Ledger.AccrualsFit(l, credits, a.sub.token, kind) {
      forall who ensures AccrualAfter(l, a, kind, amount, feeBps, treasury, who) <= I128_MAX {
        assert InI128(Ledger.EarningsOf(l, who, a.sub.token).interval) && InI128(Ledger.EarningsOf(l, who, a.sub.token).usage);
      }
    } else {
      var i :| 0 <= i < |credits| && Ledger.Accrued(Ledger.EarningsOf(l, credits[i].0, a.sub.token), kind) + Ledger.CreditedTo(credits, credits[i].0) > I128_MAX;
      assert AccrualAfter(l, a, kind, amount, feeBps, treasury, credits[i].0) > I128_MAX;
    }
  }

  lemma IntervalWritesIff(a: Account, p: Plan, now: nat)
    requires AccountInv(a, now) && PlanFor(a, p, now) && p.amount >= 0
    ensures Snapshots.Write(a.snaps, IntervalSnapshot(p, now)).Ok?
       <==> && (p.amount > 0 || p.period in a.snaps.snaps)
            && (p.period in a.snaps.snaps ==> !a.snaps.snaps[p.period].flags.closed)
            && (p.period in a.snaps.snaps ==> InI128(ChargedIn(a.snaps, p.period) + p.amount) && InI128(UnitsIn(a.snaps, p.period)))
  {
    hide Billing, KeysOk;
    assert p.nextAllowed - p.sub.interval == a.sub.lastPayment < now;
    assert p.period in a.snaps.snaps ==> Snapshots.Billable(a.snaps.snaps[p.period]);
  }

  /** A settled charge is recorded exactly when the records have room. */
  lemma RecordsIff(cfg: Config, a: Account, p: Plan, id: nat, now: nat, key: Option<nat>)
    requires AccountInv(a, now) && PlanFor(a, p, now) && p.amount >= 0
    requires a.chargedPeriod.Some? ==> a.chargedPeriod.value < p.period
    ensures RecordInterval(cfg, a, p, id, now, key).1.Ok?
       <==> && RecordsHaveRoom(a, now, p.amount, 0)
            && (p.amount > 0 || p.period in a.snaps.snaps)
            && (key.Some? ==> |IdemRing.Filter(a.idem.entries, now, cfg.idemTtl)| < 64)
  {
    assert p.period in a.snaps.snaps ==> !a.snaps.snaps[p.period].flags.closed;
    assert IdemRing.Ordered(a.idem) == a.idem.entries;
    hide Snapshots.Write, Billing, KeysOk, PeriodsOk;
    IntervalWritesIff(a, p, now);
    assert p.period !in a.snaps.snaps && p.amount > I128_MAX ==> !InI128(p.sub.lifetimeCharged + p.amount);
  }

  /** The condition on the state before the call under which a due payment goes through. */
  ghost predicate PaymentFits(v: Vault, id: nat, key: Option<nat>)
    requires id in v.accounts
  {
    var a := v.accounts[id];
    var price := Payable(v.cfg, a, v.now);
    && (price > 0 || (Fee(price, v.cfg.feeBps, v.cfg.treasury) == 0 && CurrentPeriod(a.sub, v.now) in a.snaps.snaps))
    && AccrualsHaveRoom(v.ledger, a, StatementLog.Interval, price, v.cfg.feeBps, v.cfg.treasury)
    && RecordsHaveRoom(a, v.now, price, 0)
    && (key.Some? ==> |IdemRing.Filter(a.idem.entries, v.now, v.cfg.idemTtl)| < 64)
  }

  predicate CreditsGoThrough(l: Ledger.Ledger, a: Account, kind: StatementLog.Kind, amount: nat, feeBps: nat, treasury: Option<nat>) {
    Ledger.CreditAll(l, Credits(a, a.sub.merchant, amount, feeBps, treasury), a.sub.token, kind).1.None?
  }

  lemma CreditsCompleteIff(v: Vault, id: nat, kind: StatementLog.Kind, amount: nat, feeBps: nat)
    requires Inv(v) && B.Bounded(v) && id in v.accounts && amount <= v.accounts[id].sub.prepaid && feeBps <= 10_000 && !kind.OneOff?
    ensures CreditsGoThrough(v.ledger, v.accounts[id], kind, amount, feeBps, v.cfg.treasury)
       <==> (amount > 0 || Fee(amount, feeBps, v.cfg.treasury) == 0) && AccrualsHaveRoom(v.ledger, v.accounts[id], kind, amount, feeBps, v.cfg.treasury)
  {
    var a := v.accounts[id];
    NoFeeOfNothing(amount, feeBps, v.cfg.treasury);
    hide Credits, ValidSplit, Fee, AccrualsHaveRoom, AccountInv, B.Bounded, Ledger.AccrualsFit, Ledger.CreditAll, Ledger.NonNegativeCredits;
    Known(v, id);
    AccountFacts(a, v.now);
    CreditsSum(a, a.sub.merchant, amount, feeBps, v.cfg.treasury);
    B.CoveredByPrepaid(v, id, amount);
    if amount == 0 && feeBps > 0 && v.cfg.treasury.Some? {
      ZeroChargeWithFee(a, a.sub.merchant, feeBps, v.cfg.treasury, v.ledger, a.sub.token, kind);
    } else {
      FitIffRoom(v.ledger, a, kind, amount, feeBps, v.cfg.treasury);
      Ledger.CompleteIffAccrualsFit(v.ledger, Credits(a, a.sub.merchant, amount, feeBps, v.cfg.treasury), a.sub.token, kind);
    }
  }

  lemma SettlementSucceedsIff(v: Vault, id: nat, p: Plan, key: Option<nat>)
    requires Inv(v) && B.Bounded(v) && id in v.accounts
    requires PlanFor(v.accounts[id], p, v.now) && p.amount == Payable(v.cfg, v.accounts[id], v.now) && 0 <= p.amount <= v.accounts[id].sub.prepaid
    requires v.accounts[id].chargedPeriod.Some? ==> v.accounts[id].chargedPeriod.value < p.period
    ensures SettleInterval(v, id, StoredAdmin(v.cfg), p, key).1.Ok? <==> PaymentFits(v, id, key)
  {
    hide Credits, Inv, AccrualsHaveRoom, AccountInv, B.Bounded, Ledger.CreditAll, RecordInterval, RecordsHaveRoom, Payable, IdemRing.Filter, Fee;
    Known(v, id);
    InvFacts(v);
    CreditsCompleteIff(v, id, StatementLog.Interval, p.amount, v.cfg.feeBps);
    RecordsIff(v.cfg, v.accounts[id], p, id, v.now, key);
  }

  /** A payment that is due between parties that are ready is taken exactly when there is room for
      it; otherwise the charge reports an error. */
  lemma PaymentSucceedsIff(v: Vault, id: nat, key: Option<nat>)
    requires Inv(v) && B.Bounded(v) && !v.cfg.emergencyStop && id in v.accounts && PartiesReady(v.cfg, v.accounts[id], v.now)
    requires PaymentDue(v.cfg, v.accounts[id], id, v.now, v.ledgerSeq, key)
    ensures ChargeOne(v, id, key, None, None).result == Ok(Charged) <==> PaymentFits(v, id, key)
  {
    hide Inv, PartyObstacle, DecideInterval, SettleInterval, AccountInv, B.Bounded, PartiesReady, MerchantStatus, PaymentFits, KeyIsLive, Payable;
    var a := v.accounts[id];
    PartiesReadyIff(v.cfg, a, v.now);
    Known(v, id);
    InvFacts(v);
    AccountFacts(a, v.now);
    SettlesIff(v.cfg, StoredAdmin(v.cfg), a, id, v.now, v.ledgerSeq, key);
    var p := DecideInterval(v.cfg, StoredAdmin(v.cfg), a, id, v.now, v.ledgerSeq, key).plan;
    SettlementSucceedsIff(v, id, p, key);
    if SettleInterval(v, id, StoredAdmin(v.cfg), p, key).1.Ok? { SettlementSays(v, id, StoredAdmin(v.cfg), p, key); }
  }

  // ----- Usage -----

  /** The condition under which usage that is due is recorded and paid. */
  ghost predicate UsageFits(v: Vault, id: nat, amount: int, rate: nat)
    requires id in v.accounts
  {
    var a := v.accounts[id];
    && InI128(amount * rate) && (a.split.Some? ==> InI128(amount * 10_000))
    && AccrualsHaveRoom(v.ledger, a, StatementLog.Usage, amount, rate, v.cfg.treasury)
    && RecordsHaveRoom(a, v.now, amount, amount)
    && (CurrentPeriod(a.sub, v.now) in a.snaps.snaps ==> !a.snaps.snaps[CurrentPeriod(a.sub, v.now)].flags.closed)
  }

  lemma UsageWritesIff(a: Account, amount: int, now: nat)
    requires AccountInv(a, now) && 0 < amount <= I128_MAX && now <= U64_MAX
    ensures var p := Plan(a.sub, amount, CurrentPeriod(a.sub, now), 0);
            && UsageSnapshot(p, now).start <= U64_MAX
            && (Snapshots.Write(a.snaps, UsageSnapshot(p, now)).Ok? <==>
                  && (p.period in a.snaps.snaps ==> !a.snaps.snaps[p.period].flags.closed)
                  && InI128(ChargedIn(a.snaps, p.period) + amount) && InI128(UnitsIn(a.snaps, p.period) + amount))
  {
    hide Billing, KeysOk, CurrentPeriod;
    PeriodStart(a.sub, now);
    var p := CurrentPeriod(a.sub, now);
    assert p in a.snaps.snaps ==> Snapshots.Billable(a.snaps.snaps[p]);
  }

  lemma UsageRecordsIff(a: Account, metered: Account, amount: int, now: nat, reference: string)
    requires AccountInv(a, now) && 0 < amount && a.sub.lifetimeCharged + amount <= I128_MAX && now <= U64_MAX && metered == a.(meter := metered.meter)
    ensures RecordUsage(metered, Plan(a.sub, amount, CurrentPeriod(a.sub, now), 0), now, reference).Ok?
       <==> && RecordsHaveRoom(a, now, amount, amount)
            && (CurrentPeriod(a.sub, now) in a.snaps.snaps ==> !a.snaps.snaps[CurrentPeriod(a.sub, now)].flags.closed)
  {
    hide Snapshots.Write, Billing, KeysOk, PeriodsOk, CurrentPeriod;
    assert amount <= I128_MAX;
    UsageWritesIff(a, amount, now);
  }

  /** Usage that is due between parties that are ready is paid exactly when there is room for it. */
  lemma UsageSucceedsIff(v: Vault, id: nat, amount: int, reference: string)
    requires Inv(v) && B.Bounded(v) && !v.cfg.emergencyStop && id in v.accounts && PartiesReady(v.cfg, v.accounts[id], v.now)
    requires UsageDue(v.cfg, v.accounts[id], v.now, v.ledgerSeq, amount, reference)
    ensures var rate := if v.accounts[id].sub.merchant in v.cfg.feeOverride then v.cfg.feeOverride[v.accounts[id].sub.merchant] else v.cfg.feeBps;
            ChargeUsage(v, id, amount, reference).Ok? <==> UsageFits(v, id, amount, rate)
  {
    var a := v.accounts[id];
    Known(v, id);
    assert CurrentPeriod(a.sub, v.now) == (v.now - a.sub.startTime) / a.sub.interval;
    hide Inv, PartyObstacle, DecideUsage, RecordUsage, AccountInv, B.Bounded, PartiesReady, MerchantStatus, Credits, Ledger.CreditAll, AccrualsHaveRoom, RecordsHaveRoom, Fee, CurrentPeriod, UsageMeter.Admit;
    PartiesReadyIff(v.cfg, a, v.now);
    InvFacts(v);
    UsageSettlesIff(v.cfg, a, v.now, v.ledgerSeq, amount, reference);
    var d := DecideUsage(v.cfg, a, v.now, v.ledgerSeq, amount, reference);
    var rate := if a.sub.merchant in v.cfg.feeOverride then v.cfg.feeOverride[a.sub.merchant] else v.cfg.feeBps;
    CreditsCompleteIff(v, id, StatementLog.Usage, amount, rate);
    SameCredits(d.metered, a, amount, rate, v.cfg.treasury);
    UsageRecordsIff(a, d.metered, amount, v.now, reference);
  }

  // ----- Items of a batch -----

  /** A batch is taken up unless the contract is stopped, it is too long, its keys do not match or an
      id is repeated; an empty one changes nothing. */
  lemma BatchTakenUpIff(v: Vault, ids: seq<nat>, keys: Option<seq<nat>>)
    ensures (BatchCharge(v, ids, keys).Ok? || BatchCharge(v, ids, keys).error == HostTrap) <==>
              && !v.cfg.emergencyStop && |ids| <= 100
              && (ids != [] && keys.Some? ==> |keys.value| == |ids|)
              && (forall i, j :: 0 <= i < j < |ids| ==> ids[i] != ids[j])
    ensures ids == [] && !v.cfg.emergencyStop ==> BatchCharge(v, ids, keys) == Ok((v, []))
  {
    hide BatchRun, ReadAdmin;
  }

  /** What a batch reports for an outcome. */
  predicate Reports(item: ItemResult, id: nat, r: Result<Outcome>) {
    && item.id == id
    && (item.success <==> r == Ok(Charged) || r == Ok(ScheduledCancellation) || r == Ok(Skipped))
    && (item.success <==> item.error == None)
    && (r == Ok(Underfunded) ==> item.error == Some(Error.InsufficientBalance))
    && (r == Ok(CapReached) ==> item.error == Some(LifetimeCapReached))
    && (r.Err? ==> item.error == Some(r.error))
  }

  /** An accepted batch takes, for each item whose payment was due before the call, that payment or
      reports why not, and reports what came of every item in order. */
  lemma BatchTakes(v: Vault, ids: seq<nat>, keys: Option<seq<nat>>, k: nat)
    requires Inv(v) && k < |ids| && ids[k] in v.accounts && BatchCharge(v, ids, keys).Ok?
    ensures var (v', results) := BatchCharge(v, ids, keys).value;
            var key := if keys.Some? && k < |keys.value| then Some(keys.value[k]) else None;
            var a := v.accounts[ids[k]];
            && |results| == |ids| && Reports(results[k], ids[k], ItemOutcome(v, ids, keys, k))
            && (PaymentDue(v.cfg, a, ids[k], v.now, v.ledgerSeq, key) && results[k].success ==>
                  ids[k] in v'.accounts && Paid(a, v'.accounts[ids[k]], ids[k], Payable(v.cfg, a, v.now), v.now, key, v.cfg.idemTtl))
  {
    hide ChargeOne, BatchRun, Paid, Payable, PaymentDue, HasDuplicate, Distributed, Inv;
    OutcomeIsReported(v, ids, keys, |ids|, k);
    BatchItem(v, ids, keys, k);
    var b := BatchRun(v, ids, keys, ReadAdmin(v.cfg), Some(map[]), k);
    var key := if keys.Some? && k < |keys.value| then Some(keys.value[k]) else None;
    if PaymentDue(v.cfg, v.accounts[ids[k]], ids[k], v.now, v.ledgerSeq, key) && ItemOutcome(v, ids, keys, k).Ok? {
      BatchRunInv(v, ids, keys, ReadAdmin(v.cfg), Some(map[]), k);
      InvFacts(v);
      ChargedIsTaken(b.vault, ids[k], key, ReadAdmin(v.cfg), b.cache);
    }
  }
}
