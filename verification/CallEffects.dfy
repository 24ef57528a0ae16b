/** When each call on a subscription, a coupon or a dispute goes through, and what it changes then. */
module CallEffects {
  import opened Base
  import opened StateMachine
  import opened Accounts
  import opened AccountLaws
  import opened Vault
  import opened VaultInvariant
  import opened VaultTotals
  import opened ChargeEffects
  import ChargeMath
  import StatementLog
  import Snapshots
  import IdemRing
  import UsageMeter
  import Ledger

  /** The status every reader sees: grace that has run out is a lack of funds. */
  function StatusNow(s: Subscription, gracePeriod: Option<nat>, now: nat): Status {
    if s.status == GracePeriod && s.graceStart.Some?
       && (gracePeriod in {None, Some(0)} || now >= s.graceStart.value + gracePeriod.value || now >= U64_MAX) then InsufficientFunds
    else s.status
  }

  lemma EffectiveIsNow(v: Vault, id: nat)
    requires v.now <= U64_MAX && id in v.accounts
    ensures EffectiveSub(v, id) == v.accounts[id].sub.(status := StatusNow(v.accounts[id].sub, v.cfg.gracePeriod, v.now))
    ensures EffectiveSub(v, id).status in {Cancelled, Expired, Archived} <==> v.accounts[id].sub.status in {Cancelled, Expired, Archived}
    ensures EffectiveSub(v, id).status == Cancelled <==> v.accounts[id].sub.status == Cancelled
  {}

  /** Only the subscription of this id changes, to the given one, with its status brought up to date first. */
  predicate Rewrites(v: Vault, v': Vault, id: nat, s: Subscription)
    requires id in v.accounts
  {
    v' == v.(accounts := v.accounts[id := v.accounts[id].(sub := s)])
  }

  predicate Party(s: Subscription, caller: nat) { caller == s.subscriber || caller == s.merchant }

  // ----- Creation -----

  /** The weights of a split add up to 10000, each is positive, and no payee is blocklisted. */
  predicate SplitAllowed(cfg: Config, split: Option<seq<(nat, nat)>>) {
    split.Some? ==>
      && split.value != []
      && (forall i :: 0 <= i < |split.value| ==> split.value[i].1 > 0 && split.value[i].0 !in cfg.blocked)
      && ChargeMath.SumWeights(Weights(split.value)) == 10_000
  }

  lemma SplitAllowedIff(cfg: Config, split: Option<seq<(nat, nat)>>)
    ensures (split.Some? ==> CheckSplit(cfg, split.value).Ok?) <==> SplitAllowed(cfg, split)
  {
    hide CheckSplit;
    if split.Some? { SplitAcceptedIff(cfg, split.value); }
  }

  /** A subscription is created exactly on these terms and stores them as given: active, without
      balance or history, its clock starting now, under the next id and on its merchant's list. */
  lemma CreationStoresTerms(
    v: Vault, subscriber: nat, merchant: nat, token: nat, amount: int, interval: nat, usageEnabled: bool,
    cap: Option<int>, expiresAt: Option<nat>, expiresAtLedger: Option<nat>, split: Option<seq<(nat, nat)>>,
    proration: bool, limits: Option<UsageMeter.Limits>)
    ensures var r := CreateSubscription(v, subscriber, merchant, token, amount, interval, usageEnabled, cap, expiresAt, expiresAtLedger, split, proration, limits);
            && (r.Ok? <==>
                  && !v.cfg.emergencyStop && SplitAllowed(v.cfg, split)
                  && 0 <= amount <= I128_MAX / 10_000 && (amount == 0 ==> usageEnabled)
                  && subscriber !in v.cfg.blocked && merchant !in v.cfg.blocked
                  && 60 <= interval <= 31_536_000
                  && (expiresAt.Some? ==> v.now < expiresAt.value) && (expiresAtLedger.Some? ==> v.ledgerSeq < expiresAtLedger.value)
                  && token in v.cfg.acceptedTokens
                  && (cap.Some? ==> 0 < cap.value && amount <= cap.value)
                  && (usageEnabled ==> limits.Some?)
                  && v.nextSub < 0xFFFF_FFFF)
            && (r.Ok? ==>
                  && r.value.1 == v.nextSub
                  && var v' := r.value.0;
                     && v.nextSub in v'.accounts
                     && StoresTerms(v'.accounts[v.nextSub], v.now, subscriber, merchant, token, amount, interval, usageEnabled, cap, expiresAt, expiresAtLedger, split, proration, limits)
                     && v'.accounts == v.accounts[v.nextSub := v'.accounts[v.nextSub]]
                     && v' == v.(accounts := v'.accounts, nextSub := v.nextSub + 1,
                                 merchants := v.merchants.(subs := v.merchants.subs[merchant := (if merchant in v.merchants.subs then v.merchants.subs[merchant] else []) + [v.nextSub]])))
  {
    hide CheckSplit;
    SplitAllowedIff(v.cfg, split);
  }

  predicate StoresTerms(
    a: Account, now: nat, subscriber: nat, merchant: nat, token: nat, amount: int, interval: nat, usageEnabled: bool,
    cap: Option<int>, expiresAt: Option<nat>, expiresAtLedger: Option<nat>, split: Option<seq<(nat, nat)>>,
    proration: bool, limits: Option<UsageMeter.Limits>)
  {
    && a.sub.subscriber == subscriber && a.sub.merchant == merchant && a.sub.token == token
    && a.sub.amount == amount && a.sub.interval == interval && a.sub.usageEnabled == usageEnabled && a.sub.prorationEnabled == proration
    && a.sub.lifetimeCap == cap && a.sub.expiresAt == expiresAt && a.sub.expiresAtLedger == expiresAtLedger
    && a.split == split && a.limits == limits
    && a.sub.status == Active && a.sub.prepaid == 0 && a.sub.lifetimeCharged == 0
    && a.sub.startTime == now && a.sub.lastPayment == now
    && a.sub.autoRenew && a.sub.renewDisabledAt == None && a.sub.cancelAt == None && a.sub.graceStart == None
    && a.coupon == None && a.chargedPeriod == None && a.failures == 0 && a.meter == None && a.references == {}
    && a.log == StatementLog.EMPTY && a.snaps == Snapshots.EMPTY && a.idem == IdemRing.EMPTY
  }

  /** A split is replaced by the subscriber of a subscription that is neither cancelled nor expired,
      by one that creation would accept or by none. */
  lemma SplitReplaced(v: Vault, caller: nat, id: nat, payees: Option<seq<(nat, nat)>>)
    requires v.now <= U64_MAX
    ensures var r := UpdateSplit(v, caller, id, payees);
            && (r.Ok? <==>
                  && !v.cfg.emergencyStop && id in v.accounts && caller == v.accounts[id].sub.subscriber
                  && v.accounts[id].sub.status !in {Cancelled, Expired} && SplitAllowed(v.cfg, payees))
            && (r.Ok? ==> r.value == v.(accounts := v.accounts[id := v.accounts[id].(split := payees)]))
  {
    hide CheckSplit;
    SplitAllowedIff(v.cfg, payees);
  }

  // ----- Balance -----

  /** Room under the lifetime cap for a deposit. */
  predicate RoomUnderCap(s: Subscription, amount: int) {
    s.lifetimeCap.Some? ==> amount + s.prepaid <= Max(s.lifetimeCap.value - s.lifetimeCharged, 0)
  }

  /** A deposit of at least the minimum goes through for parties that are ready while the subscription
      is not cancelled or expired, the cap leaves room and the amounts fit. */
  lemma DepositAcceptedIff(v: Vault, id: nat, amount: int)
    requires v.now <= U64_MAX
    ensures Deposit(v, id, amount).Ok? <==>
              && !v.cfg.emergencyStop && id in v.accounts
              && var s := v.accounts[id].sub;
                 && s.subscriber !in v.cfg.blocked && CanReceive(v.cfg, s.merchant, v.now)
                 && s.status != Cancelled && !HasExpired(s, v.now, v.ledgerSeq)
                 && v.cfg.minTopup.Some? && Max(v.cfg.minTopup.value, 0) <= amount && RoomUnderCap(s, amount)
                 && InI128(s.prepaid + amount) && Held(v, s.token) + amount <= I128_MAX
  {
    hide EffectiveSub, StatusNow;
    if id in v.accounts { EffectiveIsNow(v, id); }
  }

  /** It raises balance and holdings by the amount and clears the count of failures. */
  lemma DepositAdds(v: Vault, id: nat, amount: int)
    requires v.now <= U64_MAX && Deposit(v, id, amount).Ok?
    ensures id in v.accounts
    ensures var v', a, s := Deposit(v, id, amount).value, v.accounts[id], v.accounts[id].sub;
            && v' == v.(accounts := v.accounts[id := a.(sub := s.(prepaid := s.prepaid + amount, status := StatusNow(s, v.cfg.gracePeriod, v.now)), failures := 0)], held := v'.held)
            && forall t :: Held(v', t) == Held(v, t) + (if t == s.token then amount else 0)
  {
    hide EffectiveSub, StatusNow, IsExpired, IsPaused, OnVacation;
    EffectiveIsNow(v, id);
  }

  /** Cancelling at once is for either party, of a subscription that can still be cancelled (a
      blocklisted subscriber excepted); the whole balance leaves the contract and the id leaves the
      merchant's list. */
  lemma CancelRefunds(v: Vault, caller: nat, id: nat)
    requires v.now <= U64_MAX && (id in v.accounts ==> v.accounts[id].sub.prepaid >= 0)
    ensures var r := Cancel(v, caller, id);
            && (r.Ok? <==>
                  && id in v.accounts
                  && var s := v.accounts[id].sub;
                     && !HasExpired(s, v.now, v.ledgerSeq) && Party(s, caller) && !(caller == s.subscriber && caller in v.cfg.blocked)
                     && StatusNow(s, v.cfg.gracePeriod, v.now) in {Active, Paused, InsufficientFunds, GracePeriod}
                     && (s.prepaid > 0 ==> s.prepaid <= Held(v, s.token)))
            && (r.Ok? ==>
                  var a, s := v.accounts[id], v.accounts[id].sub;
                  && r.value == v.(accounts := v.accounts[id := a.(sub := s.(status := Cancelled, prepaid := 0))], held := r.value.held, merchants := r.value.merchants)
                  && (forall t :: Held(r.value, t) == Held(v, t) - (if t == s.token then s.prepaid else 0))
                  && r.value.merchants == v.merchants.(subs := r.value.merchants.subs)
                  && Delisted(v.merchants.subs, r.value.merchants.subs, s.merchant, id))
  {
    hide Unlist, EffectiveSub, StatusNow, Delisted;
    if id in v.accounts {
      EffectiveIsNow(v, id);
      UnlistDelists(v.merchants.subs, v.accounts[id].sub.merchant, id);
    }
  }

  /** The list without its i-th element, the first of its kind. */
  predicate FirstRemoved(s: seq<nat>, x: nat, i: nat, r: seq<nat>) {
    i < |s| && s[i] == x && x !in s[..i] && r == s[..i] + s[i + 1..]
  }

  /** The first occurrence of the id is taken out of the merchant's list, if it is there. */
  ghost predicate Delisted(subs: map<nat, seq<nat>>, subs': map<nat, seq<nat>>, merchant: nat, id: nat) {
    && subs'.Keys == subs.Keys
    && (forall m :: m in subs && m != merchant ==> subs'[m] == subs[m])
    && (merchant in subs && id !in subs[merchant] ==> subs'[merchant] == subs[merchant])
    && (merchant in subs && id in subs[merchant] ==> exists i :: FirstRemoved(subs[merchant], id, i, subs'[merchant]))
  }

  lemma FirstRemovedLater(s: seq<nat>, x: nat, i: nat, r: seq<nat>)
    requires s != [] && s[0] != x && FirstRemoved(s[1..], x, i, r)
    ensures FirstRemoved(s, x, i + 1, [s[0]] + r)
  {
    assert s[..i + 1] == [s[0]] + s[1..][..i];
    assert s[i + 2..] == s[1..][i + 1..];
  }

  lemma {:induction false} RemovedOnce(s: seq<nat>, x: nat)
    ensures x !in s ==> RemoveFirst(s, x) == s
    ensures x in s ==> exists i :: FirstRemoved(s, x, i, RemoveFirst(s, x))
  {
    hide FirstRemoved;
    if s != [] && s[0] == x {
      RemovedFirst(s, x);
    } else if s != [] {
      RemovedOnce(s[1..], x);
      assert s == [s[0]] + s[1..];
      assert x in s[1..] ==> x in s;
      assert RemoveFirst(s, x) == [s[0]] + RemoveFirst(s[1..], x);
      if x in s {
        assert x in s[1..];
        var i :| FirstRemoved(s[1..], x, i, RemoveFirst(s[1..], x));
        FirstRemovedLater(s, x, i, RemoveFirst(s[1..], x));
      }
    }
  }

  lemma RemovedFirst(s: seq<nat>, x: nat)
    requires s != [] && s[0] == x
    ensures FirstRemoved(s, x, 0, RemoveFirst(s, x))
  {}

  lemma UnlistDelists(subs: map<nat, seq<nat>>, merchant: nat, id: nat)
    ensures Delisted(subs, Unlist(subs, merchant, id), merchant, id)
  {
    hide RemoveFirst, FirstRemoved;
    if merchant in subs {
      RemovedOnce(subs[merchant], id);
      assert Unlist(subs, merchant, id)[merchant] == RemoveFirst(subs[merchant], id);
      assert Unlist(subs, merchant, id).Keys == subs.Keys;
    }
  }

  /** The subscriber of an ended or expired subscription takes back its balance or, once that is gone,
      an escrow that is released and not disputed. */
  lemma SubscriberTakesBack(v: Vault, caller: nat, id: nat)
    requires v.now <= U64_MAX && (id in v.accounts ==> v.accounts[id].sub.prepaid >= 0)
    ensures var r := WithdrawSubscriber(v, caller, id);
            && (r.Ok? <==>
                  && id in v.accounts
                  && var s := v.accounts[id].sub;
                     && caller == s.subscriber && (s.status in {Cancelled, Expired, Archived} || HasExpired(s, v.now, v.ledgerSeq))
                     && (if s.prepaid > 0 then s.prepaid <= Held(v, s.token)
                         else Released(v, id, caller) && 0 < v.escrows[id].amount))
            && (r.Ok? ==>
                  var a, s := v.accounts[id], v.accounts[id].sub;
                  if s.prepaid > 0 then
                    && r.value == v.(accounts := v.accounts[id := a.(sub := s.(prepaid := 0, status := StatusNow(s, v.cfg.gracePeriod, v.now)))], held := r.value.held)
                    && forall t :: Held(r.value, t) == Held(v, t) - (if t == s.token then s.prepaid else 0)
                  else ReleasedTo(v, r.value, id))
  {
    hide EffectiveSub, StatusNow;
    if id in v.accounts { EffectiveIsNow(v, id); }
  }

  /** The escrow's subscriber may have it: its time has come, no dispute is open, the tokens are there. */
  predicate Released(v: Vault, id: nat, caller: nat) {
    && id in v.escrows && caller == v.escrows[id].subscriber && v.escrows[id].releasedAt <= v.now
    && id !in v.disputes.active && v.escrows[id].amount <= Held(v, v.escrows[id].token)
  }

  ghost predicate ReleasedTo(v: Vault, v': Vault, id: nat)
    requires id in v.escrows
  {
    && v' == v.(escrows := v.escrows - {id}, held := v'.held)
    && forall t :: Held(v', t) == Held(v, t) - (if t == v.escrows[id].token then v.escrows[id].amount else 0)
  }

  // ----- Terms -----

  /** Either party may schedule a cancellation for later, take it back, or switch renewal, of a
      subscription that is not cancelled (nor expired, for scheduling and switching). Renewal is
      switched on again only within one interval of when it was switched off, which is remembered. */
  lemma TermsChanged(v: Vault, caller: nat, id: nat, at: nat, enabled: bool)
    requires v.now <= U64_MAX && id in v.accounts
    ensures var s := v.accounts[id].sub;
            var current := s.(status := StatusNow(s, v.cfg.gracePeriod, v.now));
            var allowed := Party(s, caller) && s.status != Cancelled;
            && ScheduleCancel(v, caller, id, at).Ok? == (v.now < at && allowed && !HasExpired(s, v.now, v.ledgerSeq))
            && (ScheduleCancel(v, caller, id, at).Ok? ==> Rewrites(v, ScheduleCancel(v, caller, id, at).value, id, current.(cancelAt := Some(at))))
            && UnscheduleCancel(v, caller, id).Ok? == allowed
            && (UnscheduleCancel(v, caller, id).Ok? ==> Rewrites(v, UnscheduleCancel(v, caller, id).value, id, current.(cancelAt := None)))
            && SetAutoRenew(v, caller, id, enabled).Ok? == (allowed && !HasExpired(s, v.now, v.ledgerSeq) && (enabled && !s.autoRenew ==> StillRenewable(s, v.now)))
            && (SetAutoRenew(v, caller, id, enabled).Ok? ==>
                  Rewrites(v, SetAutoRenew(v, caller, id, enabled).value, id,
                           current.(autoRenew := enabled,
                                 renewDisabledAt := if enabled && !s.autoRenew then None else if !enabled && s.autoRenew then Some(v.now) else s.renewDisabledAt)))
  {}

  predicate StillRenewable(s: Subscription, now: nat) {
    s.renewDisabledAt.Some? && now < s.renewDisabledAt.value + s.interval && now < U64_MAX
  }

  /** Pausing, resuming, expiring and archiving follow the permitted transitions from the status every
      reader sees and touch nothing but the status. */
  lemma StatusChanged(v: Vault, id: nat, next: Status)
    requires v.now <= U64_MAX && id in v.accounts
    ensures var s := v.accounts[id].sub;
            var from := StatusNow(s, v.cfg.gracePeriod, v.now);
            && ChangeStatus(v, id, next).Ok? == (next != Cancelled && (from == next || next in AllowedFrom(from)))
            && (ChangeStatus(v, id, next).Ok? ==> Rewrites(v, ChangeStatus(v, id, next).value, id, s.(status := next)))
  {}

  /** Compaction stores the log that represents the same history with all but the statements to keep
      folded away, reports what this call has folded, and changes nothing else; an unknown id is
      answered with zeros. */
  lemma CompactionStored(v: Vault, id: nat, keepRecent: nat, h: seq<StatementLog.Statement>, p: nat)
    requires id in v.accounts ==> StatementLog.Represents(v.accounts[id].log, h, p)
    ensures var r := CompactStatements(v, id, keepRecent);
            r.Ok? ==>
              && (id !in v.accounts ==> r.value == (v, StatementLog.Summary(0, 0, 0)))
              && (id in v.accounts ==>
                    var (v', s), p' := r.value, Max(p, |h| - keepRecent);
                    && id in v'.accounts && StatementLog.Represents(v'.accounts[id].log, h, p')
                    && s == StatementLog.Summary(p' - p, |h| - p', StatementLog.TotalsBetween(h, p, p').amount)
                    && v' == v.(accounts := v.accounts[id := v.accounts[id].(log := v'.accounts[id].log)]))
  {
    hide StatementLog.Compact, StatementLog.Represents;
    if id in v.accounts { StatementLog.CompactRefines(v.accounts[id].log, h, p, keepRecent); }
  }

  /** The transitions of the contract's table. */
  function AllowedFrom(from: Status): set<Status> {
    match from
    case Active => {Paused, Cancelled, InsufficientFunds, GracePeriod, Expired}
    case Paused => {Active, Cancelled, Expired}
    case InsufficientFunds => {Active, Paused, Cancelled, Expired}
    case GracePeriod => {Active, Cancelled, InsufficientFunds, Expired}
    case Cancelled => {Archived}
    case Expired => {Archived}
    case Archived => {}
  }

  // ----- Coupons -----

  /** The coupon can be bound: known, not revoked, before its expiry if it has one, for this token, and
      with redemptions left. */
  predicate Bindable(v: Vault, code: nat, token: nat) {
    code in v.cfg.coupons &&
    var c, used := v.cfg.coupons[code], if code in v.redemptions then v.redemptions[code] else 0;
    !c.revoked && (c.expiresAt == 0 || v.now < c.expiresAt) && c.token == token && (c.maxRedemptions == 0 || used < c.maxRedemptions)
  }

  /** The subscriber of a subscription without a coupon binds one that can be bound; its counter rises
      by one, up to the largest value, and nothing else changes. */
  lemma CouponBound(v: Vault, caller: nat, id: nat, code: nat)
    ensures var r := ApplyCoupon(v, caller, id, code);
            && (r.Ok? <==>
                  && !v.cfg.emergencyStop && id in v.accounts && caller == v.accounts[id].sub.subscriber
                  && v.accounts[id].coupon == None && Bindable(v, code, v.accounts[id].sub.token))
            && (r.Ok? ==>
                  var used := if code in v.redemptions then v.redemptions[code] else 0;
                  r.value == v.(accounts := v.accounts[id := v.accounts[id].(coupon := Some(code))],
                                redemptions := v.redemptions[code := if used < 0xFFFF_FFFF then used + 1 else 0xFFFF_FFFF]))
    requires code in v.redemptions ==> v.redemptions[code] <= 0xFFFF_FFFF
  {}

  /** A new coupon has an unused code, at most all of the price and a positive fixed part off, and no
      expiry or a later one; it starts unrevoked. Revoking sets the flag of a known coupon for good. */
  lemma CouponsMade(v: Vault, code: nat, c: Coupon)
    ensures CreateCoupon(v, code, c).Ok? <==>
              && !v.cfg.emergencyStop && code !in v.cfg.coupons
              && c.percentOffBps <= 10_000 && 0 < c.fixedOff <= I128_MAX && (c.expiresAt == 0 || v.now < c.expiresAt)
    ensures CreateCoupon(v, code, c).Ok? ==>
              CreateCoupon(v, code, c).value
              == v.(cfg := v.cfg.(coupons := v.cfg.coupons[code := Coupon(c.token, c.percentOffBps, c.fixedOff, c.maxRedemptions, c.expiresAt, false)]))
    ensures RevokeCoupon(v, code).Ok? <==> !v.cfg.emergencyStop && code in v.cfg.coupons
    ensures RevokeCoupon(v, code).Ok? ==>
              var k := v.cfg.coupons[code];
              RevokeCoupon(v, code).value
              == v.(cfg := v.cfg.(coupons := v.cfg.coupons[code := Coupon(k.token, k.percentOffBps, k.fixedOff, k.maxRedemptions, k.expiresAt, true)]))
  {}

  // ----- Disputes and escrows -----

  /** The dispute is on record as open, with its whole amount in escrow, and indexed; the next id is
      one more, or 0 after the largest. */
  predicate Recorded(v: Vault, ds: Disputes, d: Dispute) {
    var n := v.disputes.nextId;
    ds == Disputes(v.disputes.records[n := d], v.disputes.escrow[n := Escrow(d.amount, 0)], v.disputes.active[d.subscription := n], if n < U64_MAX then n + 1 else 0)
  }

  /** The subscriber disputes a positive amount the merchant's balance covers, while no dispute is open
      for the subscription; the amount moves from that balance into escrow. */
  lemma DisputeOpened(v: Vault, caller: nat, id: nat, amount: int)
    ensures var r := OpenDispute(v, caller, id, amount);
            && (r.Ok? <==>
                  && id in v.accounts && caller == v.accounts[id].sub.subscriber && id !in v.disputes.active
                  && 0 < amount <= Ledger.BalanceOf(v.ledger, v.accounts[id].sub.merchant, v.accounts[id].sub.token))
            && (r.Ok? ==>
                  var (v', d) := r.value;
                  var s := v.accounts[id].sub;
                  && d == v.disputes.nextId
                  && Recorded(v, v'.disputes, Dispute(id, caller, s.merchant, amount, v.now, Open, None))
                  && (forall who, t :: Ledger.BalanceOf(v'.ledger, who, t) == Ledger.BalanceOf(v.ledger, who, t) - (if who == s.merchant && t == s.token then amount else 0))
                  && v'.ledger == v.ledger.(balance := v'.ledger.balance)
                  && v' == v.(ledger := v'.ledger, disputes := v'.disputes))
  {}

  /** The merchant of a cancellation escrow that is not yet released turns it into a dispute of the
      same amount, parties and subscription. */
  lemma EscrowDisputed(v: Vault, caller: nat, id: nat)
    ensures var r := LodgeEscrowDispute(v, caller, id);
            && (r.Ok? <==> id in v.escrows && caller == v.escrows[id].merchant && v.now < v.escrows[id].releasedAt && id !in v.disputes.active)
            && (r.Ok? ==>
                  var (v', d) := r.value;
                  var e := v.escrows[id];
                  && d == v.disputes.nextId
                  && Recorded(v, v'.disputes, Dispute(id, e.subscriber, e.merchant, e.amount, v.now, Open, None))
                  && v' == v.(escrows := v.escrows - {id}, disputes := v'.disputes))
  {}

  /** An open dispute of a known subscription is answered, which stores the time and nothing else. */
  lemma DisputeAnswered(v: Vault, d: nat)
    ensures var r := RespondDispute(v, d);
            && (r.Ok? <==> d in v.disputes.records && v.disputes.records[d].status == Open && v.disputes.records[d].subscription in v.accounts)
            && (r.Ok? ==>
                  var x := v.disputes.records[d];
                  r.value == v.(disputes := v.disputes.(records := v.disputes.records[d :=
                    Dispute(x.subscription, x.subscriber, x.merchant, x.amount, x.openedAt, Responded, Some(v.now))])))
  {}

  /** A released escrow goes to its subscriber, once. */
  lemma EscrowClaimed(v: Vault, caller: nat, id: nat)
    ensures ClaimEscrow(v, caller, id).Ok? <==> Released(v, id, caller)
    ensures ClaimEscrow(v, caller, id).Ok? ==> ReleasedTo(v, ClaimEscrow(v, caller, id).value, id) && ClaimEscrow(ClaimEscrow(v, caller, id).value, caller, id) == Err(EscrowNotFound)
  {}

  // ----- Settings -----

  /** Time and ledger numbers go forward by what has passed, up to their largest values; a configuration
      is taken over if no fee rate in it exceeds the whole, and never touches coupons. */
  lemma SettingsTaken(v: Vault, seconds: nat, ledgers: nat, cfg: Config)
    ensures Advance(v, seconds, ledgers) == v.(now := Min(v.now + seconds, U64_MAX), ledgerSeq := Min(v.ledgerSeq + ledgers, 0xFFFF_FFFF))
    ensures var allowed := cfg.feeBps <= 10_000 && forall m :: m in cfg.feeOverride ==> cfg.feeOverride[m] <= 10_000;
            Configure(v, cfg) == (if allowed then v.(cfg := cfg.(coupons := v.cfg.coupons)) else v)
  {}
}
