/** One subscription with everything stored under its id, the contract configuration a charge
    reads, and the decision part of interval and usage charges: which gate stops the charge, or
    what is to be settled. Moving money between parties is the Vault module's part. */
module Accounts {
  import opened Base
  import opened StateMachine
  import ChargeMath
  import StatementLog
  import Snapshots
  import IdemRing
  import UsageMeter
  import Ledger

  const DOMAIN_CHARGE_INTERVAL: nat := 5
  const MIN_INTERVAL: nat := 60
  const MAX_INTERVAL: nat := 31_536_000

  // ----- Data -----

  datatype Subscription = Subscription(
    subscriber: nat, merchant: nat, token: nat,
    amount: int, interval: pos, lastPayment: nat, status: Status, prepaid: int,
    usageEnabled: bool, lifetimeCap: Option<int>, lifetimeCharged: int, startTime: nat,
    expiresAt: Option<nat>, graceStart: Option<nat>, cancelAt: Option<nat>, autoRenew: bool, renewDisabledAt: Option<nat>,
    expiresAtLedger: Option<nat>, prorationEnabled: bool)

  datatype Account = Account(
    sub: Subscription,
    split: Option<seq<(nat, nat)>>,
    coupon: Option<nat>,
    log: StatementLog.Log,
    snaps: Snapshots.Store,
    idem: IdemRing.Buffer,
    chargedPeriod: Option<nat>,
    failures: nat,
    limits: Option<UsageMeter.Limits>,
    meter: Option<UsageMeter.Meter>,
    references: set<string>)

  datatype Coupon = Coupon(token: nat, percentOffBps: nat, fixedOff: int, maxRedemptions: nat, expiresAt: nat, revoked: bool)

  datatype Config = Config(
    emergencyStop: bool, feeBps: nat, treasury: Option<nat>, gracePeriod: Option<nat>, autoPause: nat,
    idemTtl: nat, disputeWindow: nat, whitelistMode: bool, approved: set<nat>,
    paused: map<nat, bool>, vacations: map<nat, (nat, nat)>, blocked: set<nat>, coupons: map<nat, Coupon>,
    feeOverride: map<nat, nat>, capOverride: set<nat>, minTopup: Option<int>, acceptedTokens: set<nat>)

  /** The administrator's charge settings, read from storage or from a batch's cache. */
  datatype Admin = Admin(feeBps: nat, treasury: Option<nat>, gracePeriod: Option<nat>, autoPause: nat)

  function StoredAdmin(cfg: Config): Admin { Admin(cfg.feeBps, cfg.treasury, cfg.gracePeriod, cfg.autoPause) }

  datatype Outcome = Charged | Underfunded | CapReached | ScheduledCancellation | Skipped

  datatype UsageOutcome = UsageCharged | UsageReplay | UsageLimited(verdict: UsageMeter.Verdict)

  /** What a charge leaves to be settled: the debit and where it falls in time. */
  datatype Plan = Plan(sub: Subscription, amount: int, period: nat, nextAllowed: nat)

  datatype Decision =
    | Finish(account: Account, result: Result<Outcome>)
    | Refund(refunded: Account, payout: int)
    | Settle(plan: Plan)

  datatype UsageDecision =
    | FinishUsage(account: Account, result: Result<UsageOutcome>)
    | SettleUsage(metered: Account, plan: Plan)

  // ----- Reading the configuration -----

  predicate IsPaused(cfg: Config, who: nat) { who in cfg.paused && cfg.paused[who] }

  predicate OnVacation(cfg: Config, who: nat, now: nat) {
    who in cfg.vacations && cfg.vacations[who].0 <= now < cfg.vacations[who].1
  }

  function MerchantStatus(cfg: Config, who: nat, now: nat): (bool, bool) {
    (IsPaused(cfg, who), OnVacation(cfg, who, now))
  }

  /** The first obstacle among the split payees, in order. */
  function PayeeObstacle(cfg: Config, payees: seq<(nat, nat)>, now: nat): Option<Error> {
    if payees == [] then None
    else if payees[0].0 in cfg.blocked then Some(SubscriberBlocklisted)
    else if IsPaused(cfg, payees[0].0) then Some(MerchantPaused)
    else if OnVacation(cfg, payees[0].0, now) then Some(VacationActive)
    else PayeeObstacle(cfg, payees[1..], now)
  }

  function PartyObstacle(cfg: Config, a: Account, status: (bool, bool), now: nat): Option<Error> {
    if status.0 then Some(MerchantPaused)
    else if status.1 then Some(VacationActive)
    else if a.sub.subscriber in cfg.blocked then Some(SubscriberBlocklisted)
    else if a.sub.merchant in cfg.blocked then Some(SubscriberBlocklisted)
    else if a.split.Some? then PayeeObstacle(cfg, a.split.value, now)
    else None
  }

  // ----- The subscription a charge works on -----

  /** A grace period that has run out reads as insufficient funds. */
  function Effective(s: Subscription, gracePeriod: Option<nat>, now: nat): Subscription {
    if s.status == GracePeriod && s.graceStart.Some? then
      var grace := if gracePeriod.Some? then gracePeriod.value else 0;
      if grace == 0 || now >= SaturatingAdd64(s.graceStart.value, grace) then s.(status := InsufficientFunds) else s
    else s
  }

  predicate IsExpired(s: Subscription, now: nat, ledgerSeq: nat) {
    || (s.expiresAt.Some? && now >= s.expiresAt.value)
    || (s.expiresAtLedger.Some? && ledgerSeq >= s.expiresAtLedger.value)
  }

  function NextChargeTime(lastPayment: nat, interval: nat): Result<nat> {
    if lastPayment + interval <= U64_MAX then Ok(lastPayment + interval) else Err(Overflow)
  }

  predicate CapIsReached(s: Subscription) { s.lifetimeCap.Some? && s.lifetimeCharged >= s.lifetimeCap.value }

  function Discount(cfg: Config, a: Account, now: nat, gross: int): int {
    if a.coupon.None? || a.coupon.value !in cfg.coupons then 0
    else
      var c := cfg.coupons[a.coupon.value];
      if c.revoked || (c.expiresAt > 0 && now >= c.expiresAt) || c.token != a.sub.token then 0
      else ChargeMath.ComputeDiscount(gross, c.percentOffBps, c.fixedOff)
  }

  function ChargeAmount(cfg: Config, a: Account, now: nat): Result<int> {
    var discounted := a.sub.amount - Discount(cfg, a, now, a.sub.amount);
    if a.sub.prorationEnabled && a.sub.lastPayment == a.sub.startTime then
      ChargeMath.ProratedFirstCharge(discounted, a.sub.interval, SaturatingSub(now, a.sub.startTime))
    else Ok(discounted)
  }

  function Fingerprint(id: nat, raw: nat): IdemRing.Fingerprint {
    IdemRing.Fingerprint(DOMAIN_CHARGE_INTERVAL, id, raw)
  }

  /** Moves the subscription to a status, or reports that the step is not permitted. */
  function MoveTo(a: Account, s: Subscription, next: Status, result: Result<Outcome>): Decision {
    match TransitionTo(s.status, next)
    case Err(e) => Finish(a, Err(e))
    case Ok(status) => Finish(a.(sub := s.(status := status)), result)
  }

  // ----- Interval charge: the gates -----

  function DecideInterval(cfg: Config, admin: Admin, a: Account, id: nat, now: nat, ledgerSeq: nat, key: Option<nat>): Decision
  {
    var s := Effective(a.sub, cfg.gracePeriod, now);
    if IsExpired(s, now, ledgerSeq) then
      if s.status == Expired then Finish(a, Err(SubscriptionExpired)) else MoveTo(a, s, Expired, Err(SubscriptionExpired))
    else
      match ChargeAmount(cfg, a, now)
      case Err(e) => Finish(a, Err(e))
      case Ok(amount) => DecideLive(admin, a, s, id, now, key, cfg.idemTtl, amount)
  }

  /** Lifetime cap, scheduled cancellation and status. */
  function DecideLive(admin: Admin, a: Account, s: Subscription, id: nat, now: nat, key: Option<nat>, ttl: nat, amount: int): Decision
  {
    if CapIsReached(s) then
      if s.status == Cancelled then Finish(a, Ok(CapReached)) else MoveTo(a, s, Cancelled, Ok(CapReached))
    else if s.cancelAt.Some? && now >= s.cancelAt.value then DecideScheduledCancel(a, s)
    else
      match StatusObstacle(s, now)
      case Some(e) => Finish(a, Err(e))
      case None => DecideRenewal(admin, a, s, id, now, key, ttl, amount)
  }

  /** A subscription that does not renew is skipped once its interval has elapsed. */
  function DecideRenewal(admin: Admin, a: Account, s: Subscription, id: nat, now: nat, key: Option<nat>, ttl: nat, amount: int): Decision
  {
    var next := NextChargeTime(s.lastPayment, s.interval);
    if !s.autoRenew && next.Err? then Finish(a, Err(next.error))
    else if !s.autoRenew && now >= next.value then Finish(a, Ok(Skipped))
    else DecideReplay(admin, a, s, id, now, key, ttl, amount)
  }

  function DecideScheduledCancel(a: Account, s: Subscription): Decision {
    if s.status == Cancelled then Finish(a, Ok(ScheduledCancellation))
    else
      match TransitionTo(s.status, Cancelled)
      case Err(e) => Finish(a, Err(e))
      case Ok(status) => Refund(a.(sub := s.(status := status, prepaid := 0, cancelAt := None)), s.prepaid)
  }

  function StatusObstacle(s: Subscription, now: nat): Option<Error> {
    if s.status == Active || s.status == GracePeriod then None
    else if s.status == InsufficientFunds then
      match NextChargeTime(s.lastPayment, s.interval)
      case Err(e) => Some(e)
      case Ok(next) => if now < next then Some(NotActive) else None
    else Some(NotActive)
  }

  /** Idempotency key, billing period and interval: has this period already been paid for? */
  function DecideReplay(admin: Admin, a: Account, s: Subscription, id: nat, now: nat, key: Option<nat>, ttl: nat, amount: int): Decision
  {
    var period := UsageMeter.PeriodAt(now, s.startTime, s.interval);
    if key.Some? && IdemRing.CheckKey(a.idem, Fingerprint(id, key.value), now, ttl) then Finish(a, Ok(Charged))
    else if a.chargedPeriod.Some? && period <= a.chargedPeriod.value then Finish(a, Err(Replay))
    else
      match NextChargeTime(s.lastPayment, s.interval)
      case Err(e) => Finish(a, Err(e))
      case Ok(next) =>
        if now < next then Finish(a, Err(IntervalNotElapsed))
        else if s.lifetimeCap.Some? && amount > s.lifetimeCap.value - s.lifetimeCharged then MoveTo(a, s, Cancelled, Ok(CapReached))
        else if 0 <= amount <= s.prepaid then Settle(Plan(s, amount, period, next))
        else DecideUnderfunded(admin, a, s, now)
  }

  /** An underfunded charge starts, keeps or ends a grace period. */
  function DecideUnderfunded(admin: Admin, a: Account, s: Subscription, now: nat): Decision {
    if admin.gracePeriod.None? then Finish(a, Err(NotInitialized))
    else
      match Demoted(s, admin.gracePeriod.value, now)
      case Err(e) => Finish(a, Err(e))
      case Ok(fallen) => CountFailure(admin, a.(sub := fallen))
  }

  function Demoted(s: Subscription, grace: nat, now: nat): Result<Subscription> {
    if s.status == GracePeriod then
      if s.graceStart.None? then Ok(s.(graceStart := Some(now)))
      else if grace == 0 || now >= SaturatingAdd64(s.graceStart.value, grace) then Ok(s.(status := InsufficientFunds))
      else Ok(s)
    else if grace > 0 then
      match TransitionTo(s.status, GracePeriod)
      case Err(e) => Err(e)
      case Ok(status) => Ok(s.(status := status, graceStart := Some(now)))
    else
      match TransitionTo(s.status, InsufficientFunds)
      case Err(e) => Err(e)
      case Ok(status) => Ok(s.(status := status, graceStart := None))
  }

  /** Counts a failed charge and pauses the subscription at the threshold. */
  function CountFailure(admin: Admin, a: Account): Decision {
    if admin.autoPause > 0 && a.sub.status == InsufficientFunds then
      var failures := SaturatingAdd32(a.failures, 1);
      if failures >= admin.autoPause then Finish(a.(sub := a.sub.(status := Paused), failures := 0), Ok(Underfunded))
      else Finish(a.(failures := failures), Ok(Underfunded))
    else Finish(a, Ok(Underfunded))
  }

  // ----- Interval charge: recording a settled charge -----

  /** The subscription after a settled interval charge. */
  function Debited(p: Plan, now: nat): Subscription {
    var recovered := if p.sub.status == GracePeriod || p.sub.status == InsufficientFunds
                     then p.sub.(status := Active, graceStart := None) else p.sub;
    var s := recovered.(prepaid := p.sub.prepaid - p.amount,
                        lastPayment := Max(now, p.sub.lastPayment),
                        lifetimeCharged := p.sub.lifetimeCharged + p.amount);
    if CapIsReached(s) then s.(status := Cancelled) else s
  }

  function IntervalSnapshot(p: Plan, now: nat): Snapshots.Snapshot {
    Snapshots.Snapshot(p.period, SaturatingSub(p.nextAllowed, p.sub.interval), now, p.amount, 0,
                       Snapshots.Flags(true, true, false, false), now)
  }

  /** Subscription, statement, snapshot, charged period and key are written in this order; an
      error keeps what was written before it, since only an entrypoint rolls back. */
  function RecordInterval(cfg: Config, a: Account, p: Plan, id: nat, now: nat, key: Option<nat>): (Account, Result<Outcome>) {
    if !InI128(p.sub.lifetimeCharged + p.amount) then (a, Err(Overflow))
    else
      var a1 := a.(sub := Debited(p, now), failures := 0);
      match StatementLog.Append(a1.log, now, SaturatingSub(p.nextAllowed, p.sub.interval), p.amount, p.sub.merchant, p.sub.token, StatementLog.Interval)
      case Err(e) => (a1, Err(e))
      case Ok(log) =>
        var a2 := a1.(log := log);
        match Snapshots.Write(a2.snaps, IntervalSnapshot(p, now))
        case Err(e) => (a2, Err(e))
        case Ok(snaps) =>
          var a3 := a2.(snaps := snaps, chargedPeriod := Some(p.period));
          if key.None? then (a3, Ok(Charged))
          else
            match IdemRing.PushKey(a3.idem, Fingerprint(id, key.value), now, cfg.idemTtl)
            case Err(e) => (a3, Err(e))
            case Ok(idem) => (a3.(idem := idem), Ok(Charged))
  }

  // ----- Usage charge -----

  function DecideUsage(cfg: Config, a: Account, now: nat, ledgerSeq: nat, amount: int, reference: string): UsageDecision
  {
    var s := Effective(a.sub, cfg.gracePeriod, now);
    if IsExpired(s, now, ledgerSeq) then
      FinishUsage(a, Err(if CanTransition(s.status, Expired) then SubscriptionExpired else InvalidStatusTransition))
    else if CapIsReached(s) then
      FinishUsage(a, Err(if CanTransition(s.status, Cancelled) then LifetimeCapReached else InvalidStatusTransition))
    else if s.status != Active then FinishUsage(a, Err(NotActive))
    else if !s.usageEnabled then FinishUsage(a, Err(UsageNotEnabled))
    else if !s.autoRenew && NextChargeTime(s.lastPayment, s.interval).Err? then FinishUsage(a, Err(Overflow))
    else if !s.autoRenew && now >= NextChargeTime(s.lastPayment, s.interval).value then FinishUsage(a, Err(NotActive))
    else if amount <= 0 then FinishUsage(a, Err(InvalidAmount))
    else if s.merchant !in cfg.capOverride && amount > s.amount then FinishUsage(a, Ok(UsageLimited(UsageMeter.UsageCapExceeded)))
    else if s.prepaid < amount then FinishUsage(a, Err(InsufficientPrepaidBalance))
    else if reference in a.references then FinishUsage(a, Ok(UsageReplay))
    else DecideMetered(a, s, now, amount)
  }

  function DecideMetered(a: Account, s: Subscription, now: nat, amount: int): UsageDecision
  {
    var period := UsageMeter.PeriodAt(now, s.startTime, s.interval);
    var (meter, verdict) := if a.limits.Some? then UsageMeter.Admit(a.meter, a.limits.value, now, period, amount)
                            else (a.meter, UsageMeter.Accepted);
    var metered := a.(meter := meter);
    if verdict != UsageMeter.Accepted then FinishUsage(metered, Ok(UsageLimited(verdict)))
    else if !InI128(s.lifetimeCharged + amount) then FinishUsage(metered, Err(Overflow))
    else if s.lifetimeCap.Some? && s.lifetimeCharged + amount > s.lifetimeCap.value then
      FinishUsage(metered.(sub := s.(status := Cancelled)), Ok(UsageCharged))
    else SettleUsage(metered, Plan(s, amount, period, 0))
  }

  function DebitedByUsage(p: Plan): Subscription {
    var s := p.sub.(prepaid := p.sub.prepaid - p.amount, lifetimeCharged := p.sub.lifetimeCharged + p.amount);
    if CapIsReached(s) then s.(status := Cancelled)
    else if s.prepaid == 0 then s.(status := InsufficientFunds)
    else s
  }

  function UsageSnapshot(p: Plan, now: nat): Snapshots.Snapshot {
    Snapshots.Snapshot(p.period, p.sub.startTime + p.period * p.sub.interval, now, p.amount, p.amount,
                       Snapshots.Flags(false, false, true, false), now)
  }

  function RecordUsage(a: Account, p: Plan, now: nat, reference: string): Result<Account> {
    var a1 := a.(sub := DebitedByUsage(p), references := a.references + {reference});
    if UsageSnapshot(p, now).start > U64_MAX then Err(Overflow)
    else
      match Snapshots.Write(a1.snaps, UsageSnapshot(p, now))
      case Err(e) => Err(e)
      case Ok(snaps) =>
        match StatementLog.Append(a1.log, now, now, p.amount, p.sub.merchant, p.sub.token, StatementLog.Usage)
        case Err(e) => Err(e)
        case Ok(log) => Ok(a1.(snaps := snaps, log := log))
  }

  // ----- Credits owed to the payees -----

  /** Later split payees first, the first payee last with the rest; otherwise the merchant. */
  function PayeeCredits(a: Account, merchant: nat, net: int): seq<(nat, int)> {
    if a.split.None? then [(merchant, net)]
    else LaterCredits(a.split.value, net) + FirstCredit(a.split.value, net)
  }

  function LaterCredits(payees: seq<(nat, nat)>, net: int): (r: seq<(nat, int)>)
  {
    if |payees| <= 1 then []
    else LaterCredits(payees[..|payees| - 1], net) + [(payees[|payees| - 1].0, ChargeMath.Share(net, payees[|payees| - 1].1))]
  }

  function FirstCredit(payees: seq<(nat, nat)>, net: int): seq<(nat, int)> {
    if payees == [] then [] else [(payees[0].0, net - Ledger.SumCredits(LaterCredits(payees, net)))]
  }

  /** Everything a settled charge credits: payees first, then the treasury. */
  function Credits(a: Account, merchant: nat, amount: int, feeBps: nat, treasury: Option<nat>): seq<(nat, int)> {
    var (net, fee) := ChargeMath.FeeSplit(amount, feeBps, treasury.Some?);
    PayeeCredits(a, merchant, net) + (if fee > 0 then [(treasury.value, fee)] else [])
  }
}
