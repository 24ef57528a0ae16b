/** The whole contract state and its entrypoints as state transformers. An entrypoint that fails
    is rolled back by the host, so it yields an error and no state; a batch item that fails is
    not rolled back, so ChargeOne always yields a state. */
module Vault {
  import opened Base
  import opened StateMachine
  import opened Accounts
  import ChargeMath
  import StatementLog
  import Snapshots
  import IdemRing
  import UsageMeter
  import Ledger

  const BATCH_MAX_SIZE: nat := 100

  // ----- State -----

  datatype DisputeStatus = Open | Responded | ResolvedToMerchant | ResolvedToSubscriber

  datatype Dispute = Dispute(
    subscription: nat, subscriber: nat, merchant: nat, amount: int, openedAt: nat,
    status: DisputeStatus, respondedAt: Option<nat>)

  datatype Escrow = Escrow(original: int, disbursed: int)

  datatype Disputes = Disputes(records: map<nat, Dispute>, escrow: map<nat, Escrow>, active: map<nat, nat>, nextId: nat)

  datatype CancelEscrow = CancelEscrow(amount: int, token: nat, subscriber: nat, merchant: nat, releasedAt: nat)

  datatype Schedule = Schedule(cadence: nat, minPayout: int, lastPayoutAt: nat)

  datatype Merchants = Merchants(configured: set<nat>, subs: map<nat, seq<nat>>, schedules: map<nat, Schedule>)

  /** held is what the token contracts say this contract owns. */
  datatype Vault = Vault(
    now: nat, ledgerSeq: nat, cfg: Config, accounts: map<nat, Account>, nextSub: nat,
    ledger: Ledger.Ledger, disputes: Disputes, escrows: map<nat, CancelEscrow>,
    merchants: Merchants, redemptions: map<nat, nat>, held: map<nat, int>)

  function Held(v: Vault, token: nat): int { if token in v.held then v.held[token] else 0 }

  /** Tokens leave the contract; the token contract refuses what is not covered. */
  function Pay(v: Vault, token: nat, amount: int): Result<Vault> {
    if Held(v, token) < amount then Err(HostTrap) else Ok(v.(held := v.held[token := Held(v, token) - amount]))
  }

  /** Tokens arrive; a token balance is an i128. */
  function Receive(v: Vault, token: nat, amount: int): Result<Vault> {
    if Held(v, token) + amount > I128_MAX then Err(HostTrap) else Ok(v.(held := v.held[token := Held(v, token) + amount]))
  }

  function SetAccount(v: Vault, id: nat, a: Account): Vault { v.(accounts := v.accounts[id := a]) }

  function EffectiveSub(v: Vault, id: nat): Subscription
    requires id in v.accounts
  {
    Effective(v.accounts[id].sub, v.cfg.gracePeriod, v.now)
  }

  // ----- Interval charges -----

  type Cache = map<nat, (bool, bool)>

  datatype ChargeResult = ChargeResult(vault: Vault, cache: Option<Cache>, result: Result<Outcome>)

  /** Paused and vacation status, from the batch's cache when there is one. */
  function LookupStatus(v: Vault, merchant: nat, cache: Option<Cache>): ((bool, bool), Option<Cache>) {
    if cache.None? then (MerchantStatus(v.cfg, merchant, v.now), None)
    else if merchant in cache.value then (cache.value[merchant], cache)
    else
      var status := MerchantStatus(v.cfg, merchant, v.now);
      (status, Some(cache.value[merchant := status]))
  }

  /** One interval charge. Nothing is rolled back on an error. */
  function ChargeOne(v: Vault, id: nat, key: Option<nat>, admin: Option<Admin>, cache: Option<Cache>): ChargeResult {
    if v.cfg.emergencyStop then ChargeResult(v, cache, Err(EmergencyStopActive))
    else if id !in v.accounts then ChargeResult(v, cache, Err(NotFound))
    else
      var a := v.accounts[id];
      var (status, cache') := LookupStatus(v, a.sub.merchant, cache);
      match PartyObstacle(v.cfg, a, status, v.now)
      case Some(e) => ChargeResult(v, cache', Err(e))
      case None =>
        var settings := if admin.Some? then admin.value else StoredAdmin(v.cfg);
        var (v', r) := Carry(v, id, settings, key, DecideInterval(v.cfg, settings, a, id, v.now, v.ledgerSeq, key));
        ChargeResult(v', cache', r)
  }

  /** Carries out a decision. */
  function Carry(v: Vault, id: nat, settings: Admin, key: Option<nat>, d: Decision): (Vault, Result<Outcome>)
    requires id in v.accounts
  {
    match d
    case Finish(a', r) => (SetAccount(v, id, a'), r)
    case Refund(a', payout) =>
      if payout <= 0 then (SetAccount(v, id, a'), Ok(ScheduledCancellation))
      else
        (match Pay(SetAccount(v, id, a'), a'.sub.token, payout)
         case Err(e) => (v, Err(e))
         case Ok(v') => (v', Ok(ScheduledCancellation)))
    case Settle(p) => SettleInterval(v, id, settings, p, key)
  }

  /** Credits the payees and the treasury, then records the charge. */
  function SettleInterval(v: Vault, id: nat, settings: Admin, p: Plan, key: Option<nat>): (Vault, Result<Outcome>)
    requires id in v.accounts
  {
    var a := v.accounts[id];
    var (ledger, e) := Ledger.CreditAll(v.ledger, Credits(a, p.sub.merchant, p.amount, settings.feeBps, settings.treasury), p.sub.token, StatementLog.Interval);
    if e.Some? then (v.(ledger := ledger), Err(e.value))
    else
      var (a', r) := RecordInterval(v.cfg, a, p, id, v.now, key);
      (SetAccount(v.(ledger := ledger), id, a'), r)
  }

  /** The single-charge entrypoint. */
  function ChargeSubscription(v: Vault, id: nat, key: Option<nat>): Result<(Vault, Outcome)> {
    var c := ChargeOne(v, id, key, None, None);
    if c.result.Ok? then Ok((c.vault, c.result.value)) else Err(c.result.error)
  }

  // ----- Batches -----

  datatype ItemResult = ItemResult(id: nat, success: bool, error: Option<Error>)

  datatype BatchState = BatchState(vault: Vault, cache: Option<Cache>, results: seq<ItemResult>, trapped: bool)

  function ToItem(id: nat, r: Result<Outcome>): ItemResult {
    match r
    case Ok(Charged) => ItemResult(id, true, None)
    case Ok(ScheduledCancellation) => ItemResult(id, true, None)
    case Ok(Skipped) => ItemResult(id, true, None)
    case Ok(Underfunded) => ItemResult(id, false, Some(Error.InsufficientBalance))
    case Ok(CapReached) => ItemResult(id, false, Some(LifetimeCapReached))
    case Err(e) => ItemResult(id, false, Some(e))
  }

  function KeyAt(keys: Option<seq<nat>>, i: nat): Option<nat> {
    if keys.Some? && i < |keys.value| then Some(keys.value[i]) else None
  }

  /** The first n items of a batch, each charged on the state its predecessor left, whether or
      not that one failed. A panic aborts everything. */
  function BatchRun(v: Vault, ids: seq<nat>, keys: Option<seq<nat>>, admin: Option<Admin>, cache: Option<Cache>, n: nat): BatchState
    requires n <= |ids|
  {
    if n == 0 then BatchState(v, cache, [], false)
    else
      var b := BatchRun(v, ids, keys, admin, cache, n - 1);
      if b.trapped then b
      else
        var c := ChargeOne(b.vault, ids[n - 1], KeyAt(keys, n - 1), admin, b.cache);
        BatchState(c.vault, c.cache, b.results + [ToItem(ids[n - 1], c.result)], c.result == Err(HostTrap))
  }

  function ReadAdmin(cfg: Config): Option<Admin> {
    if cfg.gracePeriod.None? then None else Some(StoredAdmin(cfg))
  }

  predicate HasDuplicate(ids: seq<nat>) { exists i, j :: 0 <= i < j < |ids| && ids[i] == ids[j] }

  function BatchCharge(v: Vault, ids: seq<nat>, keys: Option<seq<nat>>): Result<(Vault, seq<ItemResult>)> {
    if v.cfg.emergencyStop then Err(EmergencyStopActive)
    else if |ids| > BATCH_MAX_SIZE then Err(InvalidInput)
    else if ids == [] then Ok((v, []))
    else if keys.Some? && |keys.value| != |ids| then Err(InvalidInput)
    else if HasDuplicate(ids) then Err(InvalidInput)
    else
      var b := BatchRun(v, ids, keys, ReadAdmin(v.cfg), Some(map[]), |ids|);
      if b.trapped then Err(HostTrap) else Ok((b.vault, b.results))
  }

  // ----- Usage charges -----

  function RouteFeeBps(cfg: Config, merchant: nat): nat {
    if merchant in cfg.feeOverride then cfg.feeOverride[merchant] else cfg.feeBps
  }

  /** With an unlimited usage amount the fee and share products can leave i128, which panics. */
  predicate ProductsFit(a: Account, amount: int, feeBps: nat) {
    InI128(amount * feeBps) && (a.split.Some? ==> InI128(amount * ChargeMath.BPS))
  }

  function ChargeUsage(v: Vault, id: nat, amount: int, reference: string): Result<(Vault, UsageOutcome)> {
    if v.cfg.emergencyStop then Err(EmergencyStopActive)
    else if id !in v.accounts then Err(NotFound)
    else
      var a := v.accounts[id];
      match PartyObstacle(v.cfg, a, MerchantStatus(v.cfg, a.sub.merchant, v.now), v.now)
      case Some(e) => Err(e)
      case None =>
        match DecideUsage(v.cfg, a, v.now, v.ledgerSeq, amount, reference)
        case FinishUsage(a', r) => if r.Ok? then Ok((SetAccount(v, id, a'), r.value)) else Err(r.error)
        case SettleUsage(metered, p) => SettleMetered(v, id, metered, p, reference)
  }

  function SettleMetered(v: Vault, id: nat, metered: Account, p: Plan, reference: string): Result<(Vault, UsageOutcome)> {
    var feeBps := RouteFeeBps(v.cfg, p.sub.merchant);
    if !ProductsFit(metered, p.amount, feeBps) then Err(HostTrap)
    else
      var (ledger, e) := Ledger.CreditAll(v.ledger, Credits(metered, p.sub.merchant, p.amount, feeBps, v.cfg.treasury), p.sub.token, StatementLog.Usage);
      if e.Some? then Err(e.value)
      else
        match RecordUsage(metered, p, v.now, reference)
        case Err(e) => Err(e)
        case Ok(a') => Ok((SetAccount(v.(ledger := ledger), id, a'), UsageCharged))
  }

  // ----- Subscriptions -----

  function CreateSubscription(
    v: Vault, subscriber: nat, merchant: nat, token: nat, amount: int, interval: nat, usageEnabled: bool,
    cap: Option<int>, expiresAt: Option<nat>, expiresAtLedger: Option<nat>, split: Option<seq<(nat, nat)>>,
    proration: bool, limits: Option<UsageMeter.Limits>): Result<(Vault, nat)>
  {
    if v.cfg.emergencyStop then Err(EmergencyStopActive)
    else if split.Some? && CheckSplit(v.cfg, split.value).Err? then Err(CheckSplit(v.cfg, split.value).error)
    else if amount < 0 || (amount == 0 && !usageEnabled) || amount > ChargeMath.MAX_SUBSCRIPTION_AMOUNT then Err(InvalidAmount)
    else if subscriber in v.cfg.blocked || merchant in v.cfg.blocked then Err(SubscriberBlocklisted)
    else if interval < MIN_INTERVAL || interval > MAX_INTERVAL then Err(InvalidInput)
    else if expiresAt.Some? && expiresAt.value <= v.now then Err(InvalidExpiration)
    else if expiresAtLedger.Some? && expiresAtLedger.value <= v.ledgerSeq then Err(InvalidExpiration)
    else if token !in v.cfg.acceptedTokens then Err(InvalidInput)
    else if cap.Some? && cap.value <= 0 then Err(InvalidAmount)
    else if cap.Some? && cap.value < amount then Err(InvalidInput)
    else if usageEnabled && limits.None? then Err(UsageLimitsRequired)
    else if v.nextSub >= U32_MAX then Err(SubscriptionLimitReached)
    else
      var s := Subscription(subscriber, merchant, token, amount, interval, v.now, Active, 0, usageEnabled, cap, 0, v.now,
                            expiresAt, None, None, true, None, expiresAtLedger, proration);
      var a := Account(s, split, None, StatementLog.EMPTY, Snapshots.EMPTY, IdemRing.EMPTY, None, 0, limits, None, {});
      var subs := if merchant in v.merchants.subs then v.merchants.subs[merchant] else [];
      Ok((SetAccount(v, v.nextSub, a).(nextSub := v.nextSub + 1, merchants := v.merchants.(subs := v.merchants.subs[merchant := subs + [v.nextSub]])),
          v.nextSub))
  }

  /** The running weight total of the first n payees, or the first objection. */
  function CheckPayees(cfg: Config, payees: seq<(nat, nat)>, n: nat): Result<nat>
    requires n <= |payees|
  {
    if n == 0 then Ok(0)
    else
      match CheckPayees(cfg, payees, n - 1)
      case Err(e) => Err(e)
      case Ok(total) =>
        var (payee, weight) := payees[n - 1];
        if weight == 0 || total + weight > U32_MAX then Err(InvalidInput)
        else if payee in cfg.blocked then Err(SubscriberBlocklisted)
        else Ok(total + weight)
  }

  /** Positive weights that sum to 10000, and nobody blocklisted. */
  function CheckSplit(cfg: Config, payees: seq<(nat, nat)>): Result<()> {
    if payees == [] then Err(InvalidInput)
    else
      match CheckPayees(cfg, payees, |payees|)
      case Err(e) => Err(e)
      case Ok(total) => if total != ChargeMath.BPS then Err(InvalidInput) else Ok(())
  }

  function UpdateSplit(v: Vault, caller: nat, id: nat, payees: Option<seq<(nat, nat)>>): Result<Vault> {
    if v.cfg.emergencyStop then Err(EmergencyStopActive)
    else if id !in v.accounts then Err(NotFound)
    else
      var s := EffectiveSub(v, id);
      if s.subscriber != caller then Err(Unauthorized)
      else if s.status == Cancelled || s.status == Expired then Err(NotActive)
      else if payees.Some? && CheckSplit(v.cfg, payees.value).Err? then Err(CheckSplit(v.cfg, payees.value).error)
      else Ok(SetAccount(v, id, v.accounts[id].(split := payees)))
  }

  function Deposit(v: Vault, id: nat, amount: int): Result<Vault> {
    if v.cfg.emergencyStop then Err(EmergencyStopActive)
    else if id !in v.accounts then Err(NotFound)
    else
      var a, s := v.accounts[id], EffectiveSub(v, id);
      if s.subscriber in v.cfg.blocked then Err(SubscriberBlocklisted)
      else if s.status == Cancelled then Err(InvalidStatusTransition)
      else if v.cfg.minTopup.None? then Err(NotInitialized)
      else if amount < 0 then Err(InvalidAmount)
      else if amount < v.cfg.minTopup.value then Err(BelowMinimumTopup)
      else if s.merchant in v.cfg.blocked then Err(SubscriberBlocklisted)
      else if IsPaused(v.cfg, s.merchant) then Err(MerchantPaused)
      else if OnVacation(v.cfg, s.merchant, v.now) then Err(VacationActive)
      else if IsExpired(s, v.now, v.ledgerSeq) then Err(SubscriptionExpired)
      else if s.lifetimeCap.Some? && amount > Max(s.lifetimeCap.value - s.lifetimeCharged, 0) - s.prepaid then Err(LifetimeCapReached)
      else if !InI128(s.prepaid + amount) then Err(Overflow)
      else Receive(SetAccount(v, id, a.(sub := s.(prepaid := s.prepaid + amount), failures := 0)), s.token, amount)
  }

  function ScheduleCancel(v: Vault, caller: nat, id: nat, cancelAt: nat): Result<Vault> {
    if cancelAt <= v.now then Err(InvalidInput)
    else if id !in v.accounts then Err(NotFound)
    else
      var s := EffectiveSub(v, id);
      if caller != s.subscriber && caller != s.merchant then Err(Forbidden)
      else if s.status == Cancelled then Err(InvalidStatusTransition)
      else if IsExpired(s, v.now, v.ledgerSeq) then Err(SubscriptionExpired)
      else Ok(SetAccount(v, id, v.accounts[id].(sub := s.(cancelAt := Some(cancelAt)))))
  }

  function UnscheduleCancel(v: Vault, caller: nat, id: nat): Result<Vault> {
    if id !in v.accounts then Err(NotFound)
    else
      var s := EffectiveSub(v, id);
      if caller != s.subscriber && caller != s.merchant then Err(Forbidden)
      else if s.status == Cancelled then Err(InvalidStatusTransition)
      else Ok(SetAccount(v, id, v.accounts[id].(sub := s.(cancelAt := None))))
  }

  /** Renewal can be switched on again for one interval after it was first switched off. */
  predicate InRenewalWindow(s: Subscription, now: nat) {
    s.renewDisabledAt.Some? && now < SaturatingAdd64(s.renewDisabledAt.value, s.interval)
  }

  function SetAutoRenew(v: Vault, caller: nat, id: nat, enabled: bool): Result<Vault> {
    if id !in v.accounts then Err(NotFound)
    else
      var s := EffectiveSub(v, id);
      if s.status == Cancelled then Err(InvalidStatusTransition)
      else if IsExpired(s, v.now, v.ledgerSeq) then Err(SubscriptionExpired)
      else if caller != s.subscriber && caller != s.merchant then Err(Forbidden)
      else if enabled && !s.autoRenew && !InRenewalWindow(s, v.now) then Err(RenewalWindowClosed)
      else
        var disabledAt := if enabled == s.autoRenew then s.renewDisabledAt else if enabled then None else Some(v.now);
        Ok(SetAccount(v, id, v.accounts[id].(sub := s.(autoRenew := enabled, renewDisabledAt := disabledAt))))
  }

  /** Immediate cancellation refunds the whole balance. */
  function Cancel(v: Vault, caller: nat, id: nat): Result<Vault> {
    if id !in v.accounts then Err(NotFound)
    else
      var s := EffectiveSub(v, id);
      if IsExpired(s, v.now, v.ledgerSeq) then Err(SubscriptionExpired)
      else if caller != s.subscriber && caller != s.merchant then Err(Forbidden)
      else if caller == s.subscriber && s.subscriber in v.cfg.blocked then Err(SubscriberBlocklisted)
      else if s.status == Cancelled || !CanTransition(s.status, Cancelled) then Err(InvalidStatusTransition)
      else
        var v1 := SetAccount(v, id, v.accounts[id].(sub := s.(status := Cancelled, prepaid := 0)));
        var v2 := v1.(merchants := v1.merchants.(subs := Unlist(v1.merchants.subs, s.merchant, id)));
        if s.prepaid > 0 then Pay(v2, s.token, s.prepaid) else Ok(v2)
  }

  function Unlist(subs: map<nat, seq<nat>>, merchant: nat, id: nat): map<nat, seq<nat>> {
    if merchant in subs then subs[merchant := RemoveFirst(subs[merchant], id)] else subs
  }

  function RemoveFirst(s: seq<nat>, x: nat): seq<nat> {
    if s == [] then [] else if s[0] == x then s[1..] else [s[0]] + RemoveFirst(s[1..], x)
  }

  /** Pausing, resuming, expiring and archiving: a permitted status change without money. */
  function ChangeStatus(v: Vault, id: nat, next: Status): Result<Vault> {
    if id !in v.accounts then Err(NotFound)
    else
      var s := EffectiveSub(v, id);
      if next == Cancelled || !CanTransition(s.status, next) then Err(InvalidStatusTransition)
      else Ok(SetAccount(v, id, v.accounts[id].(sub := s.(status := next))))
  }

  /** The subscriber takes back the balance of an ended subscription, or a released escrow. */
  function WithdrawSubscriber(v: Vault, caller: nat, id: nat): Result<Vault> {
    if id !in v.accounts then Err(NotFound)
    else
      var s := EffectiveSub(v, id);
      if caller != s.subscriber then Err(Forbidden)
      else if s.status !in {Cancelled, Expired, Archived} && !IsExpired(s, v.now, v.ledgerSeq) then Err(InvalidStatusTransition)
      else if s.prepaid > 0 then Pay(SetAccount(v, id, v.accounts[id].(sub := s.(prepaid := 0))), s.token, s.prepaid)
      else if id !in v.escrows then Err(InvalidAmount)
      else
        var e := v.escrows[id];
        if caller != e.subscriber then Err(Forbidden)
        else if v.now < e.releasedAt then Err(EscrowNotReleased)
        else if id in v.disputes.active then Err(DisputeAlreadyOpen)
        else if e.amount <= 0 then Err(InvalidAmount)
        else Pay(v.(escrows := v.escrows - {id}), e.token, e.amount)
  }

  function CompactStatements(v: Vault, id: nat, keepRecent: nat): Result<(Vault, StatementLog.Summary)> {
    if id !in v.accounts then Ok((v, StatementLog.Summary(0, 0, 0)))
    else
      match StatementLog.Compact(v.accounts[id].log, keepRecent)
      case Err(e) => Err(e)
      case Ok((log, summary)) => Ok((SetAccount(v, id, v.accounts[id].(log := log)), summary))
  }

  // ----- Coupons -----

  function CountOf(redemptions: map<nat, nat>, code: nat): nat { if code in redemptions then redemptions[code] else 0 }

  function Redemptions(v: Vault, code: nat): nat { CountOf(v.redemptions, code) }

  function CreateCoupon(v: Vault, code: nat, c: Coupon): Result<Vault> {
    if v.cfg.emergencyStop then Err(EmergencyStopActive)
    else if c.percentOffBps > ChargeMath.BPS then Err(InvalidInput)
    else if c.fixedOff <= 0 || c.fixedOff > I128_MAX then Err(InvalidAmount)
    else if c.expiresAt > 0 && c.expiresAt <= v.now then Err(InvalidInput)
    else if code in v.cfg.coupons then Err(CouponAlreadyExists)
    else Ok(v.(cfg := v.cfg.(coupons := v.cfg.coupons[code := c.(revoked := false)])))
  }

  function RevokeCoupon(v: Vault, code: nat): Result<Vault> {
    if v.cfg.emergencyStop then Err(EmergencyStopActive)
    else if code !in v.cfg.coupons then Err(CouponNotFound)
    else Ok(v.(cfg := v.cfg.(coupons := v.cfg.coupons[code := v.cfg.coupons[code].(revoked := true)])))
  }

  /** Compare-and-swap on the redemption counter. */
  function CasIncrement(v: Vault, code: nat, expected: nat, maxRedemptions: nat): Result<Vault> {
    var current := Redemptions(v, code);
    if current != expected then Err(CouponRedemptionLimitReached)
    else if maxRedemptions > 0 && current >= maxRedemptions then Err(CouponRedemptionLimitReached)
    else Ok(v.(redemptions := v.redemptions[code := SaturatingAdd32(current, 1)]))
  }

  function ApplyCoupon(v: Vault, caller: nat, id: nat, code: nat): Result<Vault> {
    if v.cfg.emergencyStop then Err(EmergencyStopActive)
    else if id !in v.accounts then Err(NotFound)
    else
      var a := v.accounts[id];
      if a.sub.subscriber != caller then Err(Unauthorized)
      else if a.coupon == Some(code) then Err(Replay)
      else if a.coupon.Some? then Err(CouponAlreadyApplied)
      else if code !in v.cfg.coupons then Err(CouponNotFound)
      else
        var c := v.cfg.coupons[code];
        if c.revoked then Err(CouponRevoked)
        else if c.expiresAt > 0 && v.now >= c.expiresAt then Err(CouponExpired)
        else if c.maxRedemptions > 0 && Redemptions(v, code) >= c.maxRedemptions then Err(CouponRedemptionLimitReached)
        else if c.token != a.sub.token then Err(CouponTokenMismatch)
        else
          match CasIncrement(v, code, Redemptions(v, code), c.maxRedemptions)
          case Err(e) => Err(e)
          case Ok(v') => Ok(SetAccount(v', id, a.(coupon := Some(code))))
  }

  // ----- Disputes -----

  function WrapNext(id: nat): nat { if id >= U64_MAX then 0 else id + 1 }

  function OpenRecord(v: Vault, d: Dispute): Vault {
    var id := v.disputes.nextId;
    v.(disputes := Disputes(v.disputes.records[id := d], v.disputes.escrow[id := Escrow(d.amount, 0)],
                            v.disputes.active[d.subscription := id], WrapNext(id)))
  }

  function OpenDispute(v: Vault, caller: nat, id: nat, amount: int): Result<(Vault, nat)> {
    if amount <= 0 then Err(InvalidAmount)
    else if id !in v.accounts then Err(NotFound)
    else
      var s := v.accounts[id].sub;
      if s.subscriber != caller then Err(Unauthorized)
      else if id in v.disputes.active then Err(DisputeAlreadyOpen)
      else if Ledger.BalanceOf(v.ledger, s.merchant, s.token) < amount then Err(DisputeAmountExceedsMerchantBalance)
      else
        var v1 := v.(ledger := Ledger.SetBalance(v.ledger, s.merchant, s.token, Ledger.BalanceOf(v.ledger, s.merchant, s.token) - amount));
        Ok((OpenRecord(v1, Dispute(id, caller, s.merchant, amount, v.now, Open, None)), v.disputes.nextId))
  }

  function RespondDispute(v: Vault, disputeId: nat): Result<Vault> {
    if disputeId !in v.disputes.records then Err(DisputeNotFound)
    else
      var d := v.disputes.records[disputeId];
      if d.status != Open then Err(DisputeAlreadyResponded)
      else if d.subscription !in v.accounts then Err(NotFound)
      else Ok(v.(disputes := v.disputes.(records := v.disputes.records[disputeId := d.(status := Responded, respondedAt := Some(v.now))])))
  }

  predicate Resolved(status: DisputeStatus) { status == ResolvedToMerchant || status == ResolvedToSubscriber }

  /** The outcome the rules allow: an unanswered dispute whose window has passed goes to the
      subscriber, an answered one where the administrator decides. */
  function Resolution(d: Dispute, windowElapsed: bool, toSubscriber: bool): Result<DisputeStatus> {
    if Resolved(d.status) then Err(DisputeAlreadyResolved)
    else if d.status == Open then (if windowElapsed then Ok(ResolvedToSubscriber) else Err(DisputeNotResponded))
    else Ok(if toSubscriber then ResolvedToSubscriber else ResolvedToMerchant)
  }

  function ResolveDispute(v: Vault, disputeId: nat, toSubscriber: bool): Result<Vault> {
    if disputeId !in v.disputes.records then Err(DisputeNotFound)
    else
      var d := v.disputes.records[disputeId];
      match Resolution(d, SaturatingSub(v.now, d.openedAt) >= v.cfg.disputeWindow, toSubscriber)
      case Err(e) => Err(e)
      case Ok(outcome) =>
        if disputeId !in v.disputes.escrow then Err(Error.InsufficientBalance)
        else
          var e := v.disputes.escrow[disputeId];
          var remaining := e.original - e.disbursed;
          if !InI128(remaining) then Err(Underflow)
          else if remaining <= 0 then Err(Error.InsufficientBalance)
          else if d.subscription !in v.accounts then Err(NotFound)
          else Disburse(v, disputeId, d, outcome, remaining)
  }

  /** The whole remaining escrow goes to one party, the record is closed and the index cleared. */
  function Disburse(v: Vault, disputeId: nat, d: Dispute, outcome: DisputeStatus, remaining: int): Result<Vault>
    requires d.subscription in v.accounts
  {
    var token := v.accounts[d.subscription].sub.token;
    var closed := v.(disputes := Disputes(v.disputes.records[disputeId := d.(status := outcome)], v.disputes.escrow - {disputeId},
                                          v.disputes.active - {d.subscription}, v.disputes.nextId));
    if outcome == ResolvedToMerchant then
      var balance := Ledger.BalanceOf(v.ledger, d.merchant, token);
      if !InI128(balance + remaining) then Err(Overflow)
      else Ok(closed.(ledger := Ledger.SetBalance(v.ledger, d.merchant, token, balance + remaining)))
    else Pay(closed, token, remaining)
  }

  function ClaimEscrow(v: Vault, caller: nat, id: nat): Result<Vault> {
    if id !in v.escrows then Err(EscrowNotFound)
    else
      var e := v.escrows[id];
      if caller != e.subscriber then Err(Unauthorized)
      else if v.now < e.releasedAt then Err(EscrowNotReleased)
      else if id in v.disputes.active then Err(DisputeAlreadyOpen)
      else Pay(v.(escrows := v.escrows - {id}), e.token, e.amount)
  }

  function LodgeEscrowDispute(v: Vault, caller: nat, id: nat): Result<(Vault, nat)> {
    if id !in v.escrows then Err(EscrowNotFound)
    else
      var e := v.escrows[id];
      if caller != e.merchant then Err(Unauthorized)
      else if v.now >= e.releasedAt then Err(EscrowNotReleased)
      else if id in v.disputes.active then Err(DisputeAlreadyOpen)
      else
        Ok((OpenRecord(v.(escrows := v.escrows - {id}), Dispute(id, e.subscriber, e.merchant, e.amount, v.now, Open, None)), v.disputes.nextId))
  }

  // ----- Merchants -----

  function MerchantApproved(cfg: Config, merchant: nat): bool { !cfg.whitelistMode || merchant in cfg.approved }

  const ALL_OPERATIONS: int := 31
  const MAX_FEE_BIPS: int := 10_000

  /** Operations are five flags, of which the lowest allows charging. */
  function CheckMerchantConfig(feeBips: int, operations: int): Result<()> {
    if feeBips > MAX_FEE_BIPS then Err(InvalidFeeBips)
    else if !(0 <= operations <= ALL_OPERATIONS) then Err(InvalidOperations)
    else if operations % 2 == 0 then Err(MustAllowChargeOperation)
    else Ok(())
  }

  /** Of a merchant's configuration only its presence and its pause flag are read by other calls. */
  function Configured(v: Vault, merchant: nat, paused: bool): Vault {
    v.(merchants := v.merchants.(configured := v.merchants.configured + {merchant}), cfg := v.cfg.(paused := v.cfg.paused[merchant := paused]))
  }

  function InitializeMerchant(v: Vault, merchant: nat, feeBips: int, operations: int): Result<Vault> {
    if !MerchantApproved(v.cfg, merchant) then Err(MerchantNotApproved)
    else
      match CheckMerchantConfig(feeBips, operations)
      case Err(e) => Err(e)
      case Ok(_) => Ok(Configured(v, merchant, false))
  }

  function SetMerchantConfig(v: Vault, merchant: nat, feeBips: int, operations: int, paused: bool): Result<Vault> {
    match CheckMerchantConfig(feeBips, operations)
    case Err(e) => Err(e)
    case Ok(_) => Ok(Configured(v, merchant, paused))
  }

  function SetEarnings(l: Ledger.Ledger, who: nat, token: nat, e: Ledger.Earnings): Ledger.Ledger {
    l.(earnings := l.earnings[(who, token) := e])
  }

  /** A withdrawal is booked both as a refund and as a withdrawal. */
  function WithdrawMerchant(v: Vault, merchant: nat, token: nat, amount: int): Result<Vault> {
    var balance := Ledger.BalanceOf(v.ledger, merchant, token);
    var e := Ledger.EarningsOf(v.ledger, merchant, token);
    if v.cfg.emergencyStop then Err(EmergencyStopActive)
    else if !MerchantApproved(v.cfg, merchant) then Err(MerchantNotApproved)
    else if merchant in v.cfg.blocked then Err(SubscriberBlocklisted)
    else if amount <= 0 then Err(InvalidAmount)
    else if token !in v.cfg.acceptedTokens then Err(InvalidInput)
    else if merchant !in v.merchants.configured then Err(NotFound)
    else if balance == 0 then Err(NotFound)
    else if amount > balance then Err(Error.InsufficientBalance)
    else if Held(v, token) < amount then Err(Error.InsufficientBalance)
    else if !InI128(e.refunds + amount) || !InI128(e.withdrawals + amount) then Err(Overflow)
    else
      var l1 := Ledger.SetBalance(v.ledger, merchant, token, balance - amount);
      Pay(v.(ledger := SetEarnings(l1, merchant, token, e.(refunds := e.refunds + amount, withdrawals := e.withdrawals + amount))), token, amount)
  }

  function MerchantRefund(v: Vault, merchant: nat, token: nat, amount: int): Result<Vault> {
    var balance := Ledger.BalanceOf(v.ledger, merchant, token);
    var e := Ledger.EarningsOf(v.ledger, merchant, token);
    if !MerchantApproved(v.cfg, merchant) then Err(MerchantNotApproved)
    else if amount <= 0 then Err(InvalidAmount)
    else if merchant !in v.merchants.configured then Err(NotFound)
    else if balance == 0 then Err(NotFound)
    else if amount > balance then Err(Error.InsufficientBalance)
    else if !InI128(e.refunds + amount) then Err(Overflow)
    else
      var l1 := Ledger.SetBalance(v.ledger, merchant, token, balance - amount);
      Pay(v.(ledger := SetEarnings(l1, merchant, token, e.(refunds := e.refunds + amount))), token, amount)
  }

  function ScheduleOf(v: Vault, merchant: nat): Schedule {
    if merchant in v.merchants.schedules then v.merchants.schedules[merchant] else Schedule(0, 0, 0)
  }

  function SetSchedule(v: Vault, merchant: nat, cadence: nat, minPayout: int): Result<Vault> {
    if minPayout < 0 then Err(InvalidAmount)
    else Ok(v.(merchants := v.merchants.(schedules := v.merchants.schedules[merchant := Schedule(cadence, minPayout, ScheduleOf(v, merchant).lastPayoutAt)])))
  }

  function FlushToken(v: Vault, merchant: nat, token: nat, minPayout: int): Result<(Vault, int)> {
    var balance := Ledger.BalanceOf(v.ledger, merchant, token);
    if balance < minPayout || balance <= 0 then Ok((v, 0))
    else if merchant !in v.merchants.configured then Err(NotFound)
    else
      var l1 := Ledger.SetBalance(v.ledger, merchant, token, 0);
      var e := Ledger.EarningsOf(l1, merchant, token);
      if !InI128(e.withdrawals + balance) then Err(Overflow)
      else
        match Pay(v.(ledger := SetEarnings(l1, merchant, token, e.(withdrawals := e.withdrawals + balance))), token, balance)
        case Err(e) => Err(e)
        case Ok(v') => Ok((v', balance))
  }

  /** Flushes the first n tokens of a list and counts the payouts. */
  function FlushTokens(v: Vault, merchant: nat, tokens: seq<nat>, minPayout: int, n: nat): Result<(Vault, nat)>
    requires n <= |tokens|
  {
    if n == 0 then Ok((v, 0))
    else
      match FlushTokens(v, merchant, tokens, minPayout, n - 1)
      case Err(e) => Err(e)
      case Ok((v1, paid)) =>
        match FlushToken(v1, merchant, tokens[n - 1], minPayout)
        case Err(e) => Err(e)
        case Ok((v2, amount)) => Ok((v2, if amount > 0 then SaturatingAdd32(paid, 1) else paid))
  }

  function FlushPayouts(v: Vault, merchant: nat): Result<(Vault, nat)> {
    var schedule := ScheduleOf(v, merchant);
    var tokens := Ledger.TokensOf(v.ledger, merchant);
    if v.cfg.emergencyStop then Err(EmergencyStopActive)
    else if !MerchantApproved(v.cfg, merchant) then Err(MerchantNotApproved)
    else if schedule.cadence == 0 && schedule.minPayout == 0 then Ok((v, 0))
    else if schedule.lastPayoutAt > 0 && SaturatingSub(v.now, schedule.lastPayoutAt) < schedule.cadence then Err(IntervalNotElapsed)
    else
      match FlushTokens(v, merchant, tokens, schedule.minPayout, |tokens|)
      case Err(e) => Err(e)
      case Ok((v', paid)) =>
        Ok((v'.(merchants := v'.merchants.(schedules := v'.merchants.schedules[merchant := schedule.(lastPayoutAt := v.now)])), paid))
  }

  /** Moves one token's balance and earnings to the new address and deletes the old entries. */
  function MoveToken(l: Ledger.Ledger, oldAddr: nat, newAddr: nat, token: nat): Result<Ledger.Ledger> {
    var balance := Ledger.BalanceOf(l, oldAddr, token);
    if balance != 0 && !InI128(Ledger.BalanceOf(l, newAddr, token) + balance) then Err(HostTrap)
    else
      var l1 := if balance != 0 then Ledger.SetBalance(l, newAddr, token, Ledger.BalanceOf(l, newAddr, token) + balance) else l;
      var l2 := l1.(balance := l1.balance - {(oldAddr, token)});
      if (oldAddr, token) in l2.earnings then
        Ok(l2.(earnings := l2.earnings[(newAddr, token) := l2.earnings[(oldAddr, token)]] - {(oldAddr, token)}))
      else Ok(l2)
  }

  function MoveTokens(l: Ledger.Ledger, oldAddr: nat, newAddr: nat, tokens: seq<nat>, n: nat): Result<Ledger.Ledger>
    requires n <= |tokens|
  {
    if n == 0 then Ok(l)
    else
      match MoveTokens(l, oldAddr, newAddr, tokens, n - 1)
      case Err(e) => Err(e)
      case Ok(l1) => MoveToken(l1, oldAddr, newAddr, tokens[n - 1])
  }

  /** A list extended by the elements of another that it does not have yet. */
  function Merged(base: seq<nat>, more: seq<nat>, n: nat): seq<nat>
    requires n <= |more|
  {
    if n == 0 then base
    else
      var m := Merged(base, more, n - 1);
      if more[n - 1] in m then m else m + [more[n - 1]]
  }

  function MoveKey<T>(m: map<nat, T>, oldAddr: nat, newAddr: nat): map<nat, T> {
    if oldAddr in m then m[newAddr := m[oldAddr]] - {oldAddr} else m
  }

  function MoveList(m: map<nat, seq<nat>>, oldAddr: nat, newAddr: nat): map<nat, seq<nat>> {
    var list := if oldAddr in m then m[oldAddr] else [];
    var base := if newAddr in m then m[newAddr] else [];
    (if list != [] then m[newAddr := Merged(base, list, |list|)] else m) - {oldAddr}
  }

  function Readdress(accounts: map<nat, Account>, ids: seq<nat>, oldAddr: nat, newAddr: nat): map<nat, Account> {
    map id | id in accounts ::
      if id in ids && accounts[id].sub.merchant == oldAddr then accounts[id].(sub := accounts[id].sub.(merchant := newAddr)) else accounts[id]
  }

  /** Nothing here refuses old == new, unlike what the contract documents. */
  function RotateMerchant(v: Vault, oldAddr: nat, newAddr: nat): Result<Vault> {
    var tokens := Ledger.TokensOf(v.ledger, oldAddr);
    match MoveTokens(v.ledger, oldAddr, newAddr, tokens, |tokens|)
    case Err(e) => Err(e)
    case Ok(l) =>
      var ids := if oldAddr in v.merchants.subs then v.merchants.subs[oldAddr] else [];
      Ok(v.(ledger := l.(tokens := MoveList(v.ledger.tokens, oldAddr, newAddr)),
            cfg := v.cfg.(paused := MoveKey(v.cfg.paused, oldAddr, newAddr), vacations := MoveKey(v.cfg.vacations, oldAddr, newAddr)),
            merchants := v.merchants.(configured := (if oldAddr in v.merchants.configured then v.merchants.configured + {newAddr} - {oldAddr} else v.merchants.configured),
                                      subs := MoveList(v.merchants.subs, oldAddr, newAddr)),
            accounts := Readdress(v.accounts, ids, oldAddr, newAddr)))
  }

  // ----- Steps -----

  datatype Op =
    | Tick(seconds: nat, ledgers: nat)
    | Reconfigure(cfg: Config)
    | Create(subscriber: nat, merchant: nat, token: nat, amount: int, interval: nat, usageEnabled: bool,
             cap: Option<int>, expiresAt: Option<nat>, expiresAtLedger: Option<nat>, split: Option<seq<(nat, nat)>>,
             proration: bool, limits: Option<UsageMeter.Limits>)
    | SetSplit(caller: nat, id: nat, payees: Option<seq<(nat, nat)>>)
    | DoDeposit(id: nat, amount: int)
    | Charge(id: nat, key: Option<nat>)
    | Batch(ids: seq<nat>, keys: Option<seq<nat>>)
    | MeteredCharge(id: nat, amount: int, reference: string)
    | Compaction(id: nat, keepRecent: nat)
    | ScheduleCancellation(caller: nat, id: nat, cancelAt: nat)
    | UnscheduleCancellation(caller: nat, id: nat)
    | ToggleRenewal(caller: nat, id: nat, enabled: bool)
    | CancelNow(caller: nat, id: nat)
    | SetStatus(id: nat, next: Status)
    | SubscriberWithdrawal(caller: nat, id: nat)
    | NewCoupon(code: nat, coupon: Coupon)
    | EndCoupon(code: nat)
    | BindCoupon(caller: nat, id: nat, code: nat)
    | RaiseDispute(caller: nat, id: nat, amount: int)
    | Respond(disputeId: nat)
    | Resolve(disputeId: nat, toSubscriber: bool)
    | Claim(caller: nat, id: nat)
    | Lodge(caller: nat, id: nat)
    | NewMerchant(merchant: nat, feeBips: int, operations: int)
    | MerchantSettings(merchant: nat, feeBips: int, operations: int, paused: bool)
    | MerchantWithdrawal(merchant: nat, token: nat, amount: int)
    | RefundByMerchant(merchant: nat, token: nat, amount: int)
    | PayoutSchedule(merchant: nat, cadence: nat, minPayout: int)
    | Flush(merchant: nat)
    | Rotate(oldAddr: nat, newAddr: nat)

  predicate IsCharge(op: Op) { op.Charge? || op.Batch? || op.MeteredCharge? }

  predicate IsDisputeCall(op: Op) { op.RaiseDispute? || op.Respond? || op.Resolve? || op.Lodge? }

  predicate IsMerchantCall(op: Op) {
    || op.NewMerchant? || op.MerchantSettings? || op.PayoutSchedule?
    || op.MerchantWithdrawal? || op.RefundByMerchant? || op.Flush? || op.Rotate?
  }

  predicate IsSetting(op: Op) { op.Tick? || op.Reconfigure? }

  predicate IsCouponCall(op: Op) { op.NewCoupon? || op.EndCoupon? || op.BindCoupon? }

  predicate IsSubscriptionCall(op: Op) { !IsCharge(op) && !IsDisputeCall(op) && !IsMerchantCall(op) && !IsSetting(op) && !IsCouponCall(op) }

  /** Every configuration the administrator's setters can reach: fee rates are bounded. */
  predicate FeesAllowed(cfg: Config) {
    cfg.feeBps <= ChargeMath.BPS && forall m :: m in cfg.feeOverride ==> cfg.feeOverride[m] <= ChargeMath.BPS
  }

  function Configure(v: Vault, cfg: Config): Vault {
    if FeesAllowed(cfg) then v.(cfg := cfg.(coupons := v.cfg.coupons)) else v
  }

  function Advance(v: Vault, seconds: nat, ledgers: nat): Vault {
    v.(now := SaturatingAdd64(v.now, seconds), ledgerSeq := SaturatingAdd32(v.ledgerSeq, ledgers))
  }

  function Kept(v: Vault, r: Result<Vault>): Vault { if r.Ok? then r.value else v }

  function KeptFirst<T>(v: Vault, r: Result<(Vault, T)>): Vault { if r.Ok? then r.value.0 else v }

  function SettingStep(v: Vault, op: Op): Vault
    requires IsSetting(op)
  {
    match op
    case Tick(seconds, ledgers) => Advance(v, seconds, ledgers)
    case Reconfigure(cfg) => Configure(v, cfg)
  }

  function ChargeStep(v: Vault, op: Op): Vault
    requires IsCharge(op)
  {
    match op
    case Charge(id, key) => KeptFirst(v, ChargeSubscription(v, id, key))
    case Batch(ids, keys) => KeptFirst(v, BatchCharge(v, ids, keys))
    case MeteredCharge(id, amount, reference) => KeptFirst(v, ChargeUsage(v, id, amount, reference))
  }

  function SubscriptionStep(v: Vault, op: Op): Vault
    requires IsSubscriptionCall(op)
  {
    match op
    case Create(subscriber, merchant, token, amount, interval, usage, cap, exp, expLedger, split, proration, limits) =>
      KeptFirst(v, CreateSubscription(v, subscriber, merchant, token, amount, interval, usage, cap, exp, expLedger, split, proration, limits))
    case SetSplit(caller, id, payees) => Kept(v, UpdateSplit(v, caller, id, payees))
    case DoDeposit(id, amount) => Kept(v, Deposit(v, id, amount))
    case Compaction(id, keepRecent) => KeptFirst(v, CompactStatements(v, id, keepRecent))
    case ScheduleCancellation(caller, id, at) => Kept(v, ScheduleCancel(v, caller, id, at))
    case UnscheduleCancellation(caller, id) => Kept(v, UnscheduleCancel(v, caller, id))
    case ToggleRenewal(caller, id, enabled) => Kept(v, SetAutoRenew(v, caller, id, enabled))
    case CancelNow(caller, id) => Kept(v, Cancel(v, caller, id))
    case SetStatus(id, next) => Kept(v, ChangeStatus(v, id, next))
    case SubscriberWithdrawal(caller, id) => Kept(v, WithdrawSubscriber(v, caller, id))
    case Claim(caller, id) => Kept(v, ClaimEscrow(v, caller, id))
  }

  function CouponStep(v: Vault, op: Op): Vault
    requires IsCouponCall(op)
  {
    match op
    case NewCoupon(code, c) => Kept(v, CreateCoupon(v, code, c))
    case EndCoupon(code) => Kept(v, RevokeCoupon(v, code))
    case BindCoupon(caller, id, code) => Kept(v, ApplyCoupon(v, caller, id, code))
  }

  function DisputeStep(v: Vault, op: Op): Vault
    requires IsDisputeCall(op)
  {
    match op
    case RaiseDispute(caller, id, amount) => KeptFirst(v, OpenDispute(v, caller, id, amount))
    case Respond(d) => Kept(v, RespondDispute(v, d))
    case Resolve(d, toSubscriber) => Kept(v, ResolveDispute(v, d, toSubscriber))
    case Lodge(caller, id) => KeptFirst(v, LodgeEscrowDispute(v, caller, id))
  }

  function MerchantStep(v: Vault, op: Op): Vault
    requires IsMerchantCall(op)
  {
    match op
    case NewMerchant(m, feeBips, operations) => Kept(v, InitializeMerchant(v, m, feeBips, operations))
    case MerchantSettings(m, feeBips, operations, paused) => Kept(v, SetMerchantConfig(v, m, feeBips, operations, paused))
    case PayoutSchedule(m, cadence, min) => Kept(v, SetSchedule(v, m, cadence, min))
    case MerchantWithdrawal(m, token, amount) => Kept(v, WithdrawMerchant(v, m, token, amount))
    case RefundByMerchant(m, token, amount) => Kept(v, MerchantRefund(v, m, token, amount))
    case Flush(m) => KeptFirst(v, FlushPayouts(v, m))
    case Rotate(oldAddr, newAddr) => Kept(v, RotateMerchant(v, oldAddr, newAddr))
  }

  /** The state after one call; a failed call changes nothing. */
  function Step(v: Vault, op: Op): Vault {
    if IsCharge(op) then ChargeStep(v, op)
    else if IsSetting(op) then SettingStep(v, op)
    else if IsDisputeCall(op) then DisputeStep(v, op)
    else if IsMerchantCall(op) then MerchantStep(v, op)
    else if IsCouponCall(op) then CouponStep(v, op)
    else SubscriptionStep(v, op)
  }

  function Run(v: Vault, ops: seq<Op>): Vault {
    if ops == [] then v else Step(Run(v, ops[..|ops| - 1]), ops[|ops| - 1])
  }
}
