/** What every charge keeps true of one subscription. */
module AccountLaws {
  import opened Base
  import opened StateMachine
  import opened Accounts
  import ChargeMath
  import StatementLog
  import Snapshots
  import IdemRing
  import UsageMeter
  import Ledger

  // ----- Invariants -----

  ghost predicate ConfigOk(cfg: Config) {
    && cfg.feeBps <= ChargeMath.BPS
    && (forall m :: m in cfg.feeOverride ==> cfg.feeOverride[m] <= ChargeMath.BPS)
    && (forall c :: c in cfg.coupons ==> cfg.coupons[c].percentOffBps <= ChargeMath.BPS && 0 <= cfg.coupons[c].fixedOff <= I128_MAX)
  }

  predicate ValidSplit(split: Option<seq<(nat, nat)>>) {
    split.Some? ==>
      && split.value != []
      && (forall i :: 0 <= i < |split.value| ==> split.value[i].1 > 0)
      && ChargeMath.SumWeights(Weights(split.value)) == ChargeMath.BPS
  }

  function Weights(payees: seq<(nat, nat)>): seq<nat> {
    seq(|payees|, i requires 0 <= i < |payees| => payees[i].1)
  }

  predicate Shape(a: Account, now: nat) {
    && MIN_INTERVAL <= a.sub.interval <= MAX_INTERVAL
    && 0 <= a.sub.amount <= ChargeMath.MAX_SUBSCRIPTION_AMOUNT
    && 0 <= a.sub.prepaid
    && 0 <= a.sub.lifetimeCharged <= I128_MAX
    && a.sub.startTime <= a.sub.lastPayment <= now
    && ValidSplit(a.split)
  }

  /** The cap is never exceeded, and a cap that is reached has ended the subscription. */
  predicate CapOk(s: Subscription) {
    s.lifetimeCap.Some? ==>
      && s.lifetimeCharged <= s.lifetimeCap.value
      && (s.lifetimeCharged == s.lifetimeCap.value ==> s.status == Cancelled || s.status == Archived)
  }

  /** The log stores a history of non-negative statements that adds up to the lifetime total;
      only a log whose numbering is exhausted may have missed later charges. */
  ghost predicate Billing(log: StatementLog.Log, lifetime: int) {
    exists h :: BilledBy(log, h, lifetime)
  }

  ghost predicate BilledBy(log: StatementLog.Log, h: seq<StatementLog.Statement>, lifetime: int) {
    && StatementLog.Represents(log, h, log.agg.prunedCount)
    && StatementLog.NonNegative(h)
    && StatementLog.Sum(h) <= lifetime
    && (|h| < U32_MAX ==> StatementLog.Sum(h) == lifetime)
  }

  function CurrentPeriod(s: Subscription, now: nat): nat
  {
    UsageMeter.PeriodAt(now, s.startTime, s.interval)
  }

  /** Closed periods are charged periods, and nothing is recorded ahead of the clock. */
  ghost predicate PeriodsOk(a: Account, now: nat)
  {
    && Snapshots.Valid(a.snaps)
    && Snapshots.UpTo(a.snaps, CurrentPeriod(a.sub, now))
    && (a.chargedPeriod.Some? ==> a.chargedPeriod.value <= CurrentPeriod(a.sub, now))
    && (forall p :: p in a.snaps.snaps && a.snaps.snaps[p].flags.closed ==> a.chargedPeriod.Some? && p <= a.chargedPeriod.value)
  }

  predicate KeysOk(b: IdemRing.Buffer, now: nat) {
    b.cursor == 0 && |b.entries| <= IdemRing.IDEM_HISTORY && forall i :: 0 <= i < |b.entries| ==> b.entries[i].insertedAt <= now
  }

  ghost predicate AccountInv(a: Account, now: nat) {
    && Shape(a, now)
    && CapOk(a.sub)
    && Billing(a.log, a.sub.lifetimeCharged)
    && PeriodsOk(a, now)
    && KeysOk(a.idem, now)
  }

  // ----- Time passes -----

  lemma PeriodMono(s: Subscription, now: nat, now': nat)
    requires now <= now'
    ensures CurrentPeriod(s, now) <= CurrentPeriod(s, now')
  {
    ChargeMath.DivMono(SaturatingSub(now, s.startTime), SaturatingSub(now', s.startTime), s.interval);
  }

  lemma InvLater(a: Account, now: nat, now': nat)
    requires AccountInv(a, now) && now <= now'
    ensures AccountInv(a, now')
  {
    PeriodMono(a.sub, now, now');
  }

  // ----- Decisions that move no money -----

  /** Equal in everything but status, grace clock and scheduled cancellation. */
  predicate SameTerms(s: Subscription, s': Subscription) {
    s' == s.(status := s'.status, graceStart := s'.graceStart, cancelAt := s'.cancelAt, prepaid := s'.prepaid)
  }

  predicate SameStores(a: Account, a': Account) {
    a' == a.(sub := a'.sub, failures := a'.failures)
  }

  predicate Ended(status: Status) { status == Cancelled || status == Archived }

  /** A subscription that is over stays over. */
  predicate NotRevived(from: Status, to: Status) {
    (Ended(from) ==> Ended(to)) && (Terminal(from) ==> Terminal(to))
  }

  /** Nothing but status, clocks and counters changes, and an ended subscription is not revived. */
  predicate Harmless(a: Account, a': Account) {
    && SameStores(a, a') && SameTerms(a.sub, a'.sub)
    && NotRevived(a.sub.status, a'.sub.status)
  }

  predicate MovesNothing(a: Account, d: Decision) {
    match d
    case Finish(a', _) => Harmless(a, a') && a'.sub.prepaid == a.sub.prepaid
    case Refund(a', payout) => Harmless(a, a') && a'.sub.prepaid == 0 && payout == a.sub.prepaid && a'.sub.status == Cancelled
    case Settle(_) => true
  }

  /** Terms that no call changes after creation. */
  predicate SameContract(s: Subscription, s': Subscription) {
    && s'.subscriber == s.subscriber && s'.token == s.token && s'.amount == s.amount && s'.interval == s.interval
    && s'.startTime == s.startTime && s'.lifetimeCap == s.lifetimeCap
  }

  ghost predicate Stores(log: StatementLog.Log, h: seq<StatementLog.Statement>) {
    StatementLog.Represents(log, h, log.agg.prunedCount)
  }

  /** Compacted or not, the log stores the history it stored before. */
  ghost predicate SameHistory(log: StatementLog.Log, log': StatementLog.Log) {
    log' == log || (forall h :: Stores(log, h) ==> Stores(log', h))
  }

  /** Nothing is charged: payment clock, totals, charged period, snapshots, keys, the statement
      history and its numbering stay, and a subscription that is over stays over. */
  ghost predicate Tame(a: Account, a': Account) {
    && SameContract(a.sub, a'.sub)
    && a'.sub.lastPayment == a.sub.lastPayment && a'.sub.lifetimeCharged == a.sub.lifetimeCharged
    && a'.chargedPeriod == a.chargedPeriod && a'.snaps == a.snaps && a'.idem == a.idem && a'.log.lastSeq == a.log.lastSeq
    && a'.limits == a.limits
    && SameHistory(a.log, a'.log) && NotRevived(a.sub.status, a'.sub.status)
  }

  /** And the usage meter stays, too. */
  ghost predicate Untouched(a: Account, a': Account) { Tame(a, a') && a'.meter == a.meter }

  lemma DemotedTerms(s: Subscription, grace: nat, now: nat)
    ensures Demoted(s, grace, now).Ok? ==> SameTerms(s, Demoted(s, grace, now).value) && Demoted(s, grace, now).value.prepaid == s.prepaid
  {
    hide CanTransition, SaturatingAdd64;
  }

  lemma CountingTerms(admin: Admin, a: Account)
    ensures var d := CountFailure(admin, a); d.Finish? && SameStores(a, d.account) && SameTerms(a.sub, d.account.sub) && d.account.sub.prepaid == a.sub.prepaid
  {
    hide SaturatingAdd32;
  }

  lemma UnderfundedIsHarmless(admin: Admin, a: Account, s: Subscription, now: nat)
    requires Harmless(a, a.(sub := s)) && s.prepaid == a.sub.prepaid && !Terminal(s.status)
    ensures MovesNothing(a, DecideUnderfunded(admin, a, s, now))
    ensures DecideUnderfunded(admin, a, s, now).Finish?
  {
    hide Demoted, CountFailure;
    if admin.gracePeriod.Some? {
      DemotedTerms(s, admin.gracePeriod.value, now);
      var fallen := Demoted(s, admin.gracePeriod.value, now);
      if fallen.Ok? { CountingTerms(admin, a.(sub := fallen.value)); }
    }
  }

  /** A first underfunded charge starts the grace clock; repeating it within the grace period
      neither restarts the clock nor ends it, and the period ends for every reader at the same
      instant. */
  lemma GraceRunsOnce(admin: Admin, a: Account, s: Subscription, start: nat, later: nat)
    requires s.status == Active && admin.gracePeriod.Some? && admin.gracePeriod.value > 0 && start <= later
    ensures var first := DecideUnderfunded(admin, a, s, start);
            && first == Finish(a.(sub := s.(status := GracePeriod, graceStart := Some(start))), Ok(Underfunded))
            && (later < SaturatingAdd64(start, admin.gracePeriod.value) ==>
                  DecideUnderfunded(admin, first.account, first.account.sub, later) == first)
            && (Effective(first.account.sub, admin.gracePeriod, later).status ==
                  (if later < SaturatingAdd64(start, admin.gracePeriod.value) then GracePeriod else InsufficientFunds))
  {}

  /** With no grace period every underfunded charge is counted, and the one that reaches the
      threshold pauses. */
  lemma FailureIsCounted(admin: Admin, a: Account, s: Subscription, now: nat)
    requires s.status in {Active, InsufficientFunds} && admin.gracePeriod == Some(0) && 0 < admin.autoPause <= U32_MAX
    ensures var d := DecideUnderfunded(admin, a, s, now);
            && d.Finish? && d.result == Ok(Underfunded) && SameStores(a, d.account) && d.account.sub.prepaid == s.prepaid
            && (if a.failures + 1 >= admin.autoPause then d.account.sub.status == Paused && d.account.failures == 0
                else d.account.sub.status == InsufficientFunds && d.account.failures == a.failures + 1)
  {}

  /** Only the underfunded path reports an underfunded charge, and only of a live subscription. */
  lemma UnderfundedIsLive(cfg: Config, admin: Admin, a: Account, id: nat, now: nat, ledgerSeq: nat, key: Option<nat>)
    requires var d := DecideInterval(cfg, admin, a, id, now, ledgerSeq, key); d.Finish? && d.result == Ok(Underfunded)
    ensures var s := Effective(a.sub, cfg.gracePeriod, now);
            && s.status in {Active, GracePeriod, InsufficientFunds}
            && DecideInterval(cfg, admin, a, id, now, ledgerSeq, key) == DecideUnderfunded(admin, a, s, now)
  {
    hide IdemRing.CheckKey, ChargeAmount, IsExpired, CapIsReached, DecideUnderfunded, UsageMeter.PeriodAt;
  }

  lemma UnderfundedInGrace(admin: Admin, a: Account, s: Subscription, now: nat)
    requires admin.gracePeriod.Some? && admin.gracePeriod.value > 0
    requires s.status == GracePeriod && s.graceStart.Some? ==> now < SaturatingAdd64(s.graceStart.value, admin.gracePeriod.value)
    requires s.status == Paused ==> a.sub.status == Paused
    ensures var d := DecideUnderfunded(admin, a, s, now);
            d.Finish? && d.account.failures == a.failures && (d.account.sub.status == Paused ==> a.sub.status == Paused)
  {
    hide SaturatingAdd32, SaturatingAdd64;
  }

  /** With a positive grace period no charge is counted as a failure and none pauses: an active
      subscription falls into grace, one in grace stays there, and one whose grace has run out
      cannot fall again. */
  lemma GraceNeverCounts(cfg: Config, admin: Admin, a: Account, id: nat, now: nat, ledgerSeq: nat, key: Option<nat>)
    requires cfg.gracePeriod.Some? && cfg.gracePeriod.value > 0 && admin.gracePeriod == cfg.gracePeriod
    ensures var d := DecideInterval(cfg, admin, a, id, now, ledgerSeq, key);
            && (d.Finish? ==> d.account.failures == a.failures && (d.account.sub.status == Paused ==> a.sub.status == Paused))
            && (d.Refund? ==> d.refunded.failures == a.failures && d.refunded.sub.status != Paused)
  {
    hide IdemRing.CheckKey, ChargeAmount, IsExpired, CapIsReached, UsageMeter.PeriodAt, DecideUnderfunded, CanTransition;
    UnderfundedInGrace(admin, a, Effective(a.sub, cfg.gracePeriod, now), now);
  }

  lemma ReplayIsHarmless(admin: Admin, a: Account, s: Subscription, id: nat, now: nat, key: Option<nat>, ttl: nat, amount: int)
    requires Harmless(a, a.(sub := s)) && s.prepaid == a.sub.prepaid && !Terminal(s.status)
    ensures MovesNothing(a, DecideReplay(admin, a, s, id, now, key, ttl, amount))
  {
    UnderfundedIsHarmless(admin, a, s, now);
  }

  lemma LiveIsHarmless(admin: Admin, a: Account, s: Subscription, id: nat, now: nat, key: Option<nat>, ttl: nat, amount: int)
    requires Harmless(a, a.(sub := s)) && s.prepaid == a.sub.prepaid
    ensures MovesNothing(a, DecideLive(admin, a, s, id, now, key, ttl, amount))
  {
    if StatusObstacle(s, now).None? {
      ReplayIsHarmless(admin, a, s, id, now, key, ttl, amount);
    }
  }

  /** A decision that ends here leaves balance, totals and records alone, and a scheduled
      cancellation pays out exactly the whole balance. */
  lemma FinishIsHarmless(cfg: Config, admin: Admin, a: Account, id: nat, now: nat, ledgerSeq: nat, key: Option<nat>)
    ensures MovesNothing(a, DecideInterval(cfg, admin, a, id, now, ledgerSeq, key))
  {
    var s := Effective(a.sub, cfg.gracePeriod, now);
    var amount := ChargeAmount(cfg, a, now);
    if !IsExpired(s, now, ledgerSeq) && amount.Ok? {
      LiveIsHarmless(admin, a, s, id, now, key, cfg.idemTtl, amount.value);
    }
  }

  lemma HarmlessKeepsInv(a: Account, a': Account, now: nat)
    requires AccountInv(a, now)
    requires SameStores(a, a') && SameTerms(a.sub, a'.sub) && 0 <= a'.sub.prepaid
    requires Ended(a.sub.status) ==> Ended(a'.sub.status)
    ensures AccountInv(a', now)
  {}

  /** Whether a subscription renews is nobody else's business. */
  lemma RenewalKeepsInv(a: Account, enabled: bool, disabledAt: Option<nat>, now: nat)
    requires AccountInv(a, now)
    ensures AccountInv(a.(sub := a.sub.(autoRenew := enabled, renewDisabledAt := disabledAt)), now)
  {}

  // ----- What a settlement is based on -----

  lemma ReplaySettles(admin: Admin, a: Account, s: Subscription, id: nat, now: nat, key: Option<nat>, ttl: nat, amount: int)
    requires DecideReplay(admin, a, s, id, now, key, ttl, amount).Settle?
    ensures DecideReplay(admin, a, s, id, now, key, ttl, amount).plan
         == Plan(s, amount, CurrentPeriod(s, now), s.lastPayment + s.interval)
    ensures s.lastPayment + s.interval <= now && 0 <= amount <= s.prepaid
    ensures a.chargedPeriod.Some? ==> a.chargedPeriod.value < CurrentPeriod(s, now)
    ensures s.lifetimeCap.Some? ==> amount <= s.lifetimeCap.value - s.lifetimeCharged
    ensures !(key.Some? && IdemRing.CheckKey(a.idem, Fingerprint(id, key.value), now, ttl))
  {}

  lemma LiveSettles(admin: Admin, a: Account, s: Subscription, id: nat, now: nat, key: Option<nat>, ttl: nat, amount: int)
    requires DecideLive(admin, a, s, id, now, key, ttl, amount).Settle?
    ensures !CapIsReached(s) && s.status in {Active, GracePeriod, InsufficientFunds}
    ensures s.autoRenew || now < s.lastPayment + s.interval
    ensures DecideLive(admin, a, s, id, now, key, ttl, amount) == DecideReplay(admin, a, s, id, now, key, ttl, amount)
  {}

  /** The bound coupon is good: it exists, is not revoked, has not expired and is for this token. */
  predicate CouponIsGood(cfg: Config, a: Account, now: nat) {
    a.coupon.Some? && a.coupon.value in cfg.coupons &&
    var c := cfg.coupons[a.coupon.value]; !c.revoked && (c.expiresAt == 0 || now < c.expiresAt) && c.token == a.sub.token
  }

  /** The price of a period: the percentage off rounded in the subscriber's favour, then the
      fixed part off, and never less than nothing. */
  function Payable(cfg: Config, a: Account, now: nat): int {
    if CouponIsGood(cfg, a, now) then
      var c := cfg.coupons[a.coupon.value];
      Max((a.sub.amount * (10_000 - c.percentOffBps)) / 10_000 - c.fixedOff, 0)
    else a.sub.amount
  }

  /** That is what the gates of a charge work with, and it is between nothing and the full amount. */
  lemma PayableIsDiscounted(cfg: Config, a: Account, now: nat)
    requires ConfigOk(cfg) && 0 <= a.sub.amount <= ChargeMath.MAX_SUBSCRIPTION_AMOUNT
    ensures Payable(cfg, a, now) == a.sub.amount - Discount(cfg, a, now, a.sub.amount)
    ensures 0 <= Payable(cfg, a, now) <= a.sub.amount
  {
    if a.coupon.Some? && a.coupon.value in cfg.coupons {
      var c := cfg.coupons[a.coupon.value];
      ChargeMath.DiscountBounds(a.sub.amount, c.percentOffBps, c.fixedOff);
    }
  }

  /** Once a full interval has passed since the start, proration leaves the amount as it is. */
  lemma ProrationNeverBites(cfg: Config, a: Account, now: nat)
    requires ConfigOk(cfg) && a.sub.lastPayment + a.sub.interval <= now <= U64_MAX
    requires 0 <= a.sub.amount <= ChargeMath.MAX_SUBSCRIPTION_AMOUNT
    ensures ChargeAmount(cfg, a, now) == Ok(Payable(cfg, a, now))
  {
    PayableIsDiscounted(cfg, a, now);
    if a.sub.prorationEnabled && a.sub.lastPayment == a.sub.startTime {
      ChargeMath.ProrationIsExactFloor(Payable(cfg, a, now), a.sub.interval, now - a.sub.startTime);
    }
  }

  /** A charge is settled only while renewal is on, for an unpaid period, a full interval after the last one, within
      the cap and within the balance; what it takes is the price less what a good coupon takes off,
      and the first-period proration never reduces it. */
  lemma SettleGuards(cfg: Config, admin: Admin, a: Account, id: nat, now: nat, ledgerSeq: nat, key: Option<nat>)
    requires ConfigOk(cfg) && AccountInv(a, now) && now <= U64_MAX
    requires DecideInterval(cfg, admin, a, id, now, ledgerSeq, key).Settle?
    ensures var p := DecideInterval(cfg, admin, a, id, now, ledgerSeq, key).plan;
            && SettledBy(a, p, now)
            && p.sub == Effective(a.sub, cfg.gracePeriod, now)
            && p.amount == Payable(cfg, a, now)
            && 0 <= p.amount <= a.sub.amount
            && !(key.Some? && IdemRing.CheckKey(a.idem, Fingerprint(id, key.value), now, cfg.idemTtl))
  {
    var s := Effective(a.sub, cfg.gracePeriod, now);
    var amount := ChargeAmount(cfg, a, now).value;
    LiveSettles(admin, a, s, id, now, key, cfg.idemTtl, amount);
    ReplaySettles(admin, a, s, id, now, key, cfg.idemTtl, amount);
    ProrationNeverBites(cfg, a, now);
    PayableIsDiscounted(cfg, a, now);
  }

  /** What holds of every settled interval charge. */
  ghost predicate SettledBy(a: Account, p: Plan, now: nat)
  {
    && SameTerms(a.sub, p.sub) && p.sub.prepaid == a.sub.prepaid
    && a.sub.autoRenew && !Terminal(a.sub.status) && p.sub.status in {Active, GracePeriod, InsufficientFunds}
    && 0 <= p.amount <= p.sub.prepaid
    && (p.sub.lifetimeCap.Some? ==> p.sub.lifetimeCharged < p.sub.lifetimeCap.value && p.amount <= p.sub.lifetimeCap.value - p.sub.lifetimeCharged)
    && p.period == CurrentPeriod(a.sub, now)
    && (a.chargedPeriod.Some? ==> a.chargedPeriod.value < p.period)
    && p.nextAllowed == a.sub.lastPayment + a.sub.interval <= now
  }

  // ----- Recording keeps the invariant -----

  lemma AppendBilling(log: StatementLog.Log, lifetime: int, chargedAt: nat, periodStart: nat, amount: int, merchant: nat, token: nat, kind: StatementLog.Kind)
    requires Billing(log, lifetime) && amount >= 0
    ensures var r := StatementLog.Append(log, chargedAt, periodStart, amount, merchant, token, kind);
            && (r.Ok? ==> Billing(r.value, lifetime + amount))
            && (r.Err? ==> Billing(log, lifetime + amount))
            && (r.Err? <==> log.lastSeq == U32_MAX)
  {
    var h :| BilledBy(log, h, lifetime);
    StatementLog.AppendRefines(log, h, log.agg.prunedCount, chargedAt, periodStart, amount, merchant, token, kind);
    var r := StatementLog.Append(log, chargedAt, periodStart, amount, merchant, token, kind);
    if r.Ok? {
      var s := StatementLog.NewStatement(h, chargedAt, periodStart, amount, merchant, token, kind);
      AppendSum(h, s);
      assert BilledBy(r.value, h + [s], lifetime + amount);
    } else {
      assert BilledBy(log, h, lifetime + amount);
    }
  }

  lemma AppendSum(h: seq<StatementLog.Statement>, s: StatementLog.Statement)
    requires StatementLog.NonNegative(h) && s.amount >= 0
    ensures StatementLog.NonNegative(h + [s]) && StatementLog.Sum(h + [s]) == StatementLog.Sum(h) + s.amount
  {
    assert StatementLog.NonNegative(h + [s]);
    StatementLog.HistoryPrefix(h, s);
  }

  lemma DebitedKeeps(a: Account, p: Plan, now: nat)
    requires AccountInv(a, now) && SettledBy(a, p, now) && InI128(p.sub.lifetimeCharged + p.amount)
    ensures var s := Debited(p, now);
            && Shape(a.(sub := s), now) && CapOk(s)
            && s.lifetimeCharged == a.sub.lifetimeCharged + p.amount
            && s.prepaid == a.sub.prepaid - p.amount
            && s.lastPayment == now && s.startTime == a.sub.startTime && s.interval == a.sub.interval
            && s.token == a.sub.token && s.merchant == a.sub.merchant && s.lifetimeCap == a.sub.lifetimeCap
  {}

  lemma PushKeepsKeys(b: IdemRing.Buffer, key: IdemRing.Fingerprint, now: nat, ttl: nat)
    requires KeysOk(b, now)
    ensures var r := IdemRing.PushKey(b, key, now, ttl); r.Ok? ==> KeysOk(r.value, now)
  {
    var r := IdemRing.PushKey(b, key, now, ttl);
    if r.Ok? {
      assert IdemRing.Ordered(b) == b.entries;
      forall i | 0 <= i < |r.value.entries| ensures r.value.entries[i].insertedAt <= now {
        if i < |r.value.entries| - 1 {
          IdemRing.FilterMembers(b.entries, now, ttl, r.value.entries[i]);
        }
      }
    }
  }

  lemma WritePeriods(a: Account, s: Snapshots.Snapshot, now: nat, charged: Option<nat>)
    requires PeriodsOk(a, now)
    requires s.period == CurrentPeriod(a.sub, now)
    requires charged == if s.flags.closed then Some(s.period) else a.chargedPeriod
    ensures var r := Snapshots.Write(a.snaps, s);
            r.Ok? ==> PeriodsOk(a.(snaps := r.value, chargedPeriod := charged), now)
  {
    Snapshots.WriteKeeps(a.snaps, s);
  }

  /** Whatever is written by a settled interval charge, complete or cut short by an error,
      satisfies the invariant. */
  lemma RecordIntervalKeepsInv(cfg: Config, a: Account, p: Plan, id: nat, now: nat, key: Option<nat>)
    requires AccountInv(a, now) && SettledBy(a, p, now)
    ensures AccountInv(RecordInterval(cfg, a, p, id, now, key).0, now)
  {
    if InI128(p.sub.lifetimeCharged + p.amount) {
      DebitedKeeps(a, p, now);
      var start := SaturatingSub(p.nextAllowed, p.sub.interval);
      AppendBilling(a.log, a.sub.lifetimeCharged, now, start, p.amount, p.sub.merchant, p.sub.token, StatementLog.Interval);
      var a1 := a.(sub := Debited(p, now), failures := 0);
      WritePeriods(a1, IntervalSnapshot(p, now), now, Some(p.period));
      if key.Some? {
        PushKeepsKeys(a.idem, Fingerprint(id, key.value), now, cfg.idemTtl);
      }
    }
  }

  /** Success means the debit, the statement, the closed snapshot and the key are all recorded. */
  lemma RecordIntervalSuccess(cfg: Config, a: Account, p: Plan, id: nat, now: nat, key: Option<nat>)
    requires AccountInv(a, now) && SettledBy(a, p, now)
    requires RecordInterval(cfg, a, p, id, now, key).1.Ok?
    ensures var a' := RecordInterval(cfg, a, p, id, now, key).0;
            && a'.sub == Debited(p, now)
            && a'.log.lastSeq == a.log.lastSeq + 1
            && a'.chargedPeriod == Some(p.period)
            && p.period in a'.snaps.snaps && a'.snaps.snaps[p.period].flags.closed
            && (key.Some? ==> IdemRing.Entry(Fingerprint(id, key.value), now) in a'.idem.entries)
  {
    DebitedKeeps(a, p, now);
    var a1 := a.(sub := Debited(p, now), failures := 0);
    Snapshots.WriteKeeps(a1.snaps, IntervalSnapshot(p, now));
    if key.Some? {
      var r := IdemRing.PushKey(a.idem, Fingerprint(id, key.value), now, cfg.idemTtl);
      assert r.value.entries[|r.value.entries| - 1] == IdemRing.Entry(Fingerprint(id, key.value), now);
    }
  }

  /** No settled interval charge is ever refused by a closed snapshot. */
  lemma NoClosedSnapshotRefusal(a: Account, p: Plan, now: nat)
    requires AccountInv(a, now) && SettledBy(a, p, now)
    ensures Snapshots.Write(a.snaps, IntervalSnapshot(p, now)) != Err(InvalidStatusTransition)
    ensures p.period in a.snaps.snaps ==> !a.snaps.snaps[p.period].flags.closed
  {}

  /** A settled charge of zero is refused by the snapshot store exactly when its period has no
      open snapshot yet; a positive one only if the merged totals overflow. */
  lemma ZeroChargeRefusal(a: Account, p: Plan, now: nat)
    requires AccountInv(a, now) && SettledBy(a, p, now)
    ensures p.amount == 0 ==>
              (Snapshots.Write(a.snaps, IntervalSnapshot(p, now)) == Err(InvalidInput) <==> p.period !in a.snaps.snaps)
    ensures p.amount > 0 && p.period !in a.snaps.snaps ==> Snapshots.Write(a.snaps, IntervalSnapshot(p, now)).Ok?
  {}

  /** The same for a complete history: when the numbering is exhausted a settled charge is
      debited but cannot be listed, so the listed sum falls behind by exactly its amount. */
  lemma ExhaustedLogFallsBehind(cfg: Config, a: Account, p: Plan, id: nat, now: nat, key: Option<nat>)
    requires AccountInv(a, now) && SettledBy(a, p, now) && InI128(p.sub.lifetimeCharged + p.amount)
    ensures var (a', r) := RecordInterval(cfg, a, p, id, now, key);
            && a'.sub.lifetimeCharged == a.sub.lifetimeCharged + p.amount
            && (if a.log.lastSeq == U32_MAX then a'.log == a.log && r == Err(Overflow)
                else StatementLog.Billed(a'.log) == StatementLog.Billed(a.log) + p.amount)
  {
    hide Snapshots.Write, IdemRing.PushKey, PeriodsOk, KeysOk, StatementLog.Billed;
    DebitedKeeps(a, p, now);
    var start := SaturatingSub(p.nextAllowed, p.sub.interval);
    var h :| BilledBy(a.log, h, a.sub.lifetimeCharged);
    StatementLog.BilledIsHistorySum(a.log, h, a.log.agg.prunedCount);
    StatementLog.AppendRefines(a.log, h, a.log.agg.prunedCount, now, start, p.amount, p.sub.merchant, p.sub.token, StatementLog.Interval);
    if a.log.lastSeq < U32_MAX {
      var s := StatementLog.NewStatement(h, now, start, p.amount, p.sub.merchant, p.sub.token, StatementLog.Interval);
      AppendSum(h, s);
      StatementLog.BilledIsHistorySum(StatementLog.Append(a.log, now, start, p.amount, p.sub.merchant, p.sub.token, StatementLog.Interval).value, h + [s], a.log.agg.prunedCount);
    }
  }

  /** While numbers remain, retained statements plus the compacted aggregate are the lifetime total. */
  lemma BilledIsLifetime(a: Account, now: nat)
    requires AccountInv(a, now)
    ensures StatementLog.Billed(a.log) <= a.sub.lifetimeCharged
    ensures a.log.lastSeq < U32_MAX ==> StatementLog.Billed(a.log) == a.sub.lifetimeCharged
  {
    var h :| BilledBy(a.log, h, a.sub.lifetimeCharged);
    StatementLog.BilledIsHistorySum(a.log, h, a.log.agg.prunedCount);
  }

  lemma CompactionKeepsHistory(log: StatementLog.Log, keepRecent: nat)
    ensures var r := StatementLog.Compact(log, keepRecent); r.Ok? ==> SameHistory(log, r.value.0)
  {
    forall h | Stores(log, h)
      ensures var r := StatementLog.Compact(log, keepRecent); r.Ok? ==> Stores(r.value.0, h)
    {
      StatementLog.CompactRefines(log, h, log.agg.prunedCount, keepRecent);
    }
  }

  /** Compaction always succeeds and keeps the invariant, the history and the billed total. */
  lemma CompactionKeepsInv(a: Account, now: nat, keepRecent: nat)
    requires AccountInv(a, now)
    ensures var r := StatementLog.Compact(a.log, keepRecent);
            && r.Ok? && AccountInv(a.(log := r.value.0), now)
            && StatementLog.Billed(r.value.0) == StatementLog.Billed(a.log)
            && r.value.0.lastSeq == a.log.lastSeq
            && SameHistory(a.log, r.value.0)
  {
    var h :| BilledBy(a.log, h, a.sub.lifetimeCharged);
    var p := a.log.agg.prunedCount;
    CompactionKeepsHistory(a.log, keepRecent);
    StatementLog.CompactSucceeds(a.log, h, p, keepRecent);
    StatementLog.CompactRefines(a.log, h, p, keepRecent);
    var log' := StatementLog.Compact(a.log, keepRecent).value.0;
    StatementLog.BilledIsHistorySum(a.log, h, p);
    StatementLog.BilledIsHistorySum(log', h, log'.agg.prunedCount);
    assert BilledBy(log', h, a.sub.lifetimeCharged);
  }

  // ----- Usage charges -----

  /** What holds of every settled usage charge. */
  ghost predicate UsageSettledBy(a: Account, metered: Account, p: Plan, now: nat)
  {
    && metered == a.(meter := metered.meter)
    && p.sub == a.sub && p.sub.status == Active
    && 0 < p.amount <= p.sub.prepaid
    && InI128(p.sub.lifetimeCharged + p.amount)
    && (p.sub.lifetimeCap.Some? ==> p.sub.lifetimeCharged + p.amount <= p.sub.lifetimeCap.value)
    && p.period == CurrentPeriod(a.sub, now)
  }

  /** A usage charge that is accepted without money moving leaves balance and records alone; one
      that is settled is positive, covered by the balance and within the cap. */
  lemma UsageDecisionFacts(cfg: Config, a: Account, now: nat, ledgerSeq: nat, amount: int, reference: string)
    requires AccountInv(a, now)
    ensures var d := DecideUsage(cfg, a, now, ledgerSeq, amount, reference);
            && (d.FinishUsage? && d.result.Ok? ==> Harmless(a.(meter := d.account.meter), d.account) && d.account.sub.prepaid == a.sub.prepaid)
            && (d.SettleUsage? ==> UsageSettledBy(a, d.metered, d.plan, now) && reference !in a.references)
  {
    hide UsageMeter.Admit, UsageMeter.PeriodAt, IsExpired, Billing, PeriodsOk, KeysOk, CanTransition;
  }

  lemma DebitedByUsageKeeps(a: Account, metered: Account, p: Plan, now: nat)
    requires AccountInv(a, now) && UsageSettledBy(a, metered, p, now)
    ensures var s := DebitedByUsage(p);
            && Shape(a.(sub := s), now) && CapOk(s)
            && s == a.sub.(prepaid := a.sub.prepaid - p.amount, lifetimeCharged := a.sub.lifetimeCharged + p.amount, status := s.status)
  {}

  lemma RecordUsageKeepsInv(a: Account, metered: Account, p: Plan, now: nat, reference: string)
    requires AccountInv(a, now) && UsageSettledBy(a, metered, p, now)
    ensures var r := RecordUsage(metered, p, now, reference);
            r.Ok? ==>
              && AccountInv(r.value, now)
              && r.value.sub == DebitedByUsage(p)
              && r.value.log.lastSeq == a.log.lastSeq + 1
              && reference in r.value.references
              && r.value.split == a.split && r.value.chargedPeriod == a.chargedPeriod && r.value.idem == a.idem
  {
    DebitedByUsageKeeps(a, metered, p, now);
    AppendBilling(a.log, a.sub.lifetimeCharged, now, now, p.amount, p.sub.merchant, p.sub.token, StatementLog.Usage);
    var a1 := metered.(sub := DebitedByUsage(p), references := metered.references + {reference});
    WritePeriods(a1, UsageSnapshot(p, now), now, a1.chargedPeriod);
  }

  /** Usage in a period whose interval charge is already recorded is always refused. */
  lemma UsageAfterIntervalIsRefused(a: Account, metered: Account, p: Plan, now: nat, reference: string)
    requires AccountInv(a, now) && UsageSettledBy(a, metered, p, now) && now <= U64_MAX
    requires p.period in a.snaps.snaps && a.snaps.snaps[p.period].flags.closed
    ensures RecordUsage(metered, p, now, reference) == Err(InvalidStatusTransition)
  {
    PeriodStart(a.sub, now);
  }

  lemma PeriodStart(s: Subscription, now: nat)
    requires s.startTime <= now
    ensures s.startTime + CurrentPeriod(s, now) * s.interval <= now
  {
    var d := now - s.startTime;
    assert d == s.interval * (d / s.interval) + d % s.interval;
  }

  // ----- Credits of a settled charge -----

  /** The later payees' credits are their shares, in order. */
  lemma {:induction false} LaterCreditsAreShares(payees: seq<(nat, nat)>, net: int)
    requires payees != []
    ensures var later := LaterCredits(payees, net);
            && |later| == |payees| - 1
            && (forall i :: 0 <= i < |later| ==> later[i] == (payees[i + 1].0, ChargeMath.Share(net, payees[i + 1].1)))
            && Ledger.SumCredits(later) == ChargeMath.SumShares(net, Weights(payees)[1..])
  {
    var n := |payees| - 1;
    if n > 0 {
      var init, last := payees[..n], payees[n];
      LaterCreditsAreShares(init, net);
      SumCreditsAppend(LaterCredits(init, net), last.0, ChargeMath.Share(net, last.1));
      SumSharesAppend(net, Weights(init)[1..], last.1);
      assert Weights(payees)[1..] == Weights(init)[1..] + [last.1];
    } else {
      assert Weights(payees)[1..] == [];
    }
  }

  lemma SumSharesAppend(net: int, weights: seq<nat>, w: nat)
    ensures ChargeMath.SumShares(net, weights + [w]) == ChargeMath.SumShares(net, weights) + ChargeMath.Share(net, w)
  {
    assert (weights + [w])[..|weights|] == weights;
  }

  lemma SumCreditsAppend(credits: seq<(nat, int)>, who: nat, amount: int)
    ensures Ledger.SumCredits(credits + [(who, amount)]) == Ledger.SumCredits(credits) + amount
  {
    assert (credits + [(who, amount)])[..|credits|] == credits;
  }

  lemma {:induction false} FloorSharesNonNegative(net: nat, payees: seq<(nat, nat)>)
    requires payees != [] && ChargeMath.SumWeights(Weights(payees)) == ChargeMath.BPS
    ensures Ledger.NonNegativeCredits(LaterCredits(payees, net) + FirstCredit(payees, net))
  {
    var weights := Weights(payees);
    LaterCreditsAreShares(payees, net);
    ChargeMath.FirstShare(net, weights);
    forall i | 0 < i < |payees| ensures ChargeMath.Share(net, payees[i].1) >= 0 {
      ChargeMath.ShareBounds(net, payees[i].1);
    }
  }

  /** The payees together receive exactly the net amount, and nobody is debited. */
  lemma PayeeCreditsSum(a: Account, merchant: nat, net: int)
    requires ValidSplit(a.split)
    ensures Ledger.SumCredits(PayeeCredits(a, merchant, net)) == net
    ensures net >= 0 ==> Ledger.NonNegativeCredits(PayeeCredits(a, merchant, net))
  {
    if a.split.None? {
      assert [(merchant, net)][..0] == [];
    } else {
      var payees := a.split.value;
      var later := LaterCredits(payees, net);
      SumCreditsAppend(later, payees[0].0, net - Ledger.SumCredits(later));
      if net >= 0 { FloorSharesNonNegative(net, payees); }
    }
  }

  /** A settled charge credits exactly what it debits. A positive charge debits nobody; a charge
      of zero does so only when a fee is due, and then the first refusal is for a negative amount. */
  lemma CreditsSum(a: Account, merchant: nat, amount: int, feeBps: nat, treasury: Option<nat>)
    requires ValidSplit(a.split) && 0 <= amount
    ensures var credits := Credits(a, merchant, amount, feeBps, treasury);
            && Ledger.SumCredits(credits) == amount
            && (amount >= 1 && feeBps <= ChargeMath.BPS ==> Ledger.NonNegativeCredits(credits))
            && (amount == 0 && (feeBps == 0 || treasury.None?) ==> Ledger.NonNegativeCredits(credits))
  {
    var (net, fee) := ChargeMath.FeeSplit(amount, feeBps, treasury.Some?);
    PayeeCreditsSum(a, merchant, net);
    var payees := PayeeCredits(a, merchant, net);
    if fee > 0 {
      SumCreditsAppend(payees, treasury.value, fee);
    } else {
      assert payees + [] == payees;
    }
    if amount >= 1 && feeBps <= ChargeMath.BPS { FeeWithin(amount, feeBps, treasury.Some?); }
  }

  lemma FeeWithin(amount: int, feeBps: nat, hasTreasury: bool)
    requires amount >= 1 && feeBps <= ChargeMath.BPS
    ensures var (net, fee) := ChargeMath.FeeSplit(amount, feeBps, hasTreasury); 0 <= net && 0 <= fee
  {
    ChargeMath.MulMono(feeBps, ChargeMath.BPS, amount);
    ChargeMath.MulMono(0, feeBps, amount);
    ChargeMath.DivMono(amount * feeBps, amount * ChargeMath.BPS, ChargeMath.BPS);
    ChargeMath.DivMono(0, amount * feeBps, ChargeMath.BPS);
  }

  /** A zero charge on which a fee is due is always refused, and posts nothing. */
  lemma ZeroChargeWithFee(a: Account, merchant: nat, feeBps: nat, treasury: Option<nat>, l: Ledger.Ledger, token: nat, kind: StatementLog.Kind)
    requires ValidSplit(a.split) && feeBps > 0 && treasury.Some?
    ensures var credits := Credits(a, merchant, 0, feeBps, treasury);
            && Ledger.CreditAll(l, credits, token, kind).1.Some?
            && Ledger.Posted(l, credits, token, kind) == 0
  {
    assert 0 * feeBps == 0;
    assert ChargeMath.FeeSplit(0, feeBps, true) == (-1, 1);
    var payees := PayeeCredits(a, merchant, -1);
    NegativeNetPostsNothing(a, merchant, l, token, kind);
    var credits := Credits(a, merchant, 0, feeBps, treasury);
    assert credits == payees + [(treasury.value, 1)];
    assert credits[..|credits| - 1] == payees;
  }

  lemma {:induction false} ZeroCreditsPostNothing(l: Ledger.Ledger, credits: seq<(nat, int)>, token: nat, kind: StatementLog.Kind)
    requires forall i :: 0 <= i < |credits| ==> credits[i].1 <= 0
    ensures Ledger.Posted(l, credits, token, kind) == 0
  {
    if credits != [] { ZeroCreditsPostNothing(l, credits[..|credits| - 1], token, kind); }
  }

  /** A net of minus one gives the payees after the first nothing. */
  lemma NothingForOthers(payees: seq<(nat, nat)>)
    requires ValidSplit(Some(payees))
    ensures forall i :: 0 <= i < |LaterCredits(payees, -1)| ==> LaterCredits(payees, -1)[i].1 == 0
  {
    hide LaterCredits, ValidSplit;
    assert payees != [] by { SplitNotEmpty(payees); }
    LaterCreditsAreShares(payees, -1);
    forall i | 0 < i < |payees| ensures ChargeMath.Share(-1, payees[i].1) == 0 { SplitWeightBelow(payees, i); }
  }

  lemma SplitNotEmpty(payees: seq<(nat, nat)>)
    requires ValidSplit(Some(payees))
    ensures payees != []
  {}

  /** It falls on the first payee, who is credited last. */
  lemma NegativeNetPayees(a: Account, merchant: nat)
    requires ValidSplit(a.split)
    ensures var payees := PayeeCredits(a, merchant, -1);
            && payees != [] && payees[|payees| - 1].1 == -1
            && forall i :: 0 <= i < |payees| - 1 ==> payees[i].1 == 0
  {
    hide LaterCredits, ValidSplit;
    if a.split.Some? {
      SplitNotEmpty(a.split.value);
      NothingForOthers(a.split.value);
      ZeroSum(LaterCredits(a.split.value, -1));
      assert PayeeCredits(a, merchant, -1) == LaterCredits(a.split.value, -1) + [(a.split.value[0].0, -1)];
    }
  }

  lemma NegativeNetPostsNothing(a: Account, merchant: nat, l: Ledger.Ledger, token: nat, kind: StatementLog.Kind)
    requires ValidSplit(a.split)
    ensures var payees := PayeeCredits(a, merchant, -1);
            && payees != [] && Ledger.CreditAll(l, payees, token, kind).1.Some? && Ledger.Posted(l, payees, token, kind) == 0
            && forall i :: 0 <= i < |payees| ==> payees[i].1 <= 0
  {
    hide PayeeCredits, ValidSplit, Ledger.Posted;
    NegativeNetPayees(a, merchant);
    ZeroCreditsPostNothing(l, PayeeCredits(a, merchant, -1), token, kind);
  }

  lemma {:induction false} ZeroSum(credits: seq<(nat, int)>)
    requires forall i :: 0 <= i < |credits| ==> credits[i].1 == 0
    ensures Ledger.SumCredits(credits) == 0
  {
    if credits != [] { ZeroSum(credits[..|credits| - 1]); }
  }

  /** With another payee beside it, no payee has the full weight. */
  lemma SplitWeightBelow(payees: seq<(nat, nat)>, i: nat)
    requires ValidSplit(Some(payees)) && 0 < i < |payees|
    ensures payees[i].1 < ChargeMath.BPS
  {
    var w := Weights(payees);
    WeightAtMostRest(w[1..], i - 1);
    assert w == [w[0]] + w[1..];
    ChargeMath.WeightsCons(w[0], w[1..]);
  }

  lemma {:induction false} WeightAtMostRest(w: seq<nat>, i: nat)
    requires i < |w|
    ensures w[i] <= ChargeMath.SumWeights(w)
  {
    if i < |w| - 1 { WeightAtMostRest(w[..|w| - 1], i); }
  }
}
