/** Who gets what from a charge, in terms of prices, rates and weights: the effect of interval and
    usage charges on every balance, every earnings record and the charged account. */
module ChargeEffects {
  import opened Base
  import opened StateMachine
  import opened Accounts
  import opened AccountLaws
  import opened Vault
  import opened VaultInvariant
  import ChargeMath
  import StatementLog
  import Snapshots
  import IdemRing
  import UsageMeter
  import Ledger

  // ----- Who gets what -----

  /** The protocol's part: its rate rounded down but at least one unit, and nothing without a rate
      or a treasury. */
  function Fee(amount: int, feeBps: nat, treasury: Option<nat>): int {
    if feeBps > 0 && treasury.Some? then Max((amount * feeBps) / 10_000, 1) else 0
  }

  /** The rounded-down parts of the payees from the second to the n-th. */
  function LaterParts(payees: seq<(nat, nat)>, net: int, n: nat): int
    requires n <= |payees|
  {
    if n <= 1 then 0 else LaterParts(payees, net, n - 1) + (net * payees[n - 1].1) / 10_000
  }

  /** Those among them that go to one party. */
  function LaterPartsOf(payees: seq<(nat, nat)>, net: int, who: nat, n: nat): int
    requires n <= |payees|
  {
    if n <= 1 then 0
    else LaterPartsOf(payees, net, who, n - 1) + (if payees[n - 1].0 == who then (net * payees[n - 1].1) / 10_000 else 0)
  }

  /** A payee's part of the net amount: the first payee gets what the others leave, and without a
      split everything is the merchant's. */
  function PayeePart(split: Option<seq<(nat, nat)>>, merchant: nat, net: int, who: nat): int {
    match split
    case None => if who == merchant then net else 0
    case Some(payees) =>
      if payees == [] then 0
      else LaterPartsOf(payees, net, who, |payees|) + (if payees[0].0 == who then net - LaterParts(payees, net, |payees|) else 0)
  }

  /** All that one party gets from a charge. */
  function Gets(split: Option<seq<(nat, nat)>>, merchant: nat, amount: int, feeBps: nat, treasury: Option<nat>, who: nat): int {
    var fee := Fee(amount, feeBps, treasury);
    PayeePart(split, merchant, amount - fee, who) + (if treasury == Some(who) then fee else 0)
  }

  function Raised(e: Ledger.Earnings, kind: StatementLog.Kind, x: int): Ledger.Earnings {
    Ledger.Earnings(e.interval + (if kind.Interval? then x else 0), e.usage + (if kind.Usage? then x else 0),
                    e.oneOff + (if kind.OneOff? then x else 0), e.withdrawals, e.refunds)
  }

  /** A charge distributed in full: in its token everybody's balance and earnings of its kind rise by
      what they get, nothing else moves, and who gets something has the token on its list. */
  ghost predicate Distributed(l: Ledger.Ledger, l': Ledger.Ledger, token: nat, kind: StatementLog.Kind,
                              split: Option<seq<(nat, nat)>>, merchant: nat, amount: int, feeBps: nat, treasury: Option<nat>) {
    forall who, t :: Gained(l, l', token, kind, split, merchant, amount, feeBps, treasury, who, t)
  }

  predicate Gained(l: Ledger.Ledger, l': Ledger.Ledger, token: nat, kind: StatementLog.Kind, split: Option<seq<(nat, nat)>>,
                   merchant: nat, amount: int, feeBps: nat, treasury: Option<nat>, who: nat, t: nat) {
    Received(l, l', token, kind, who, t, if t == token then Gets(split, merchant, amount, feeBps, treasury, who) else 0)
  }

  predicate Received(l: Ledger.Ledger, l': Ledger.Ledger, token: nat, kind: StatementLog.Kind, who: nat, t: nat, x: int) {
    && Ledger.BalanceOf(l', who, t) == Ledger.BalanceOf(l, who, t) + x
    && Ledger.EarningsOf(l', who, t) == Raised(Ledger.EarningsOf(l, who, t), kind, x)
    && Ledger.TokensOf(l', who) in {Ledger.TokensOf(l, who), Ledger.TokensOf(l, who) + [token]}
    && (token in Ledger.TokensOf(l, who) ==> Ledger.TokensOf(l', who) == Ledger.TokensOf(l, who))
    && (x > 0 ==> token in Ledger.TokensOf(l', who))
  }

  // ----- The list of credits is that distribution -----

  lemma {:induction false} CreditedToJoin(a: seq<(nat, int)>, b: seq<(nat, int)>, who: nat)
    ensures Ledger.CreditedTo(a + b, who) == Ledger.CreditedTo(a, who) + Ledger.CreditedTo(b, who)
  {
    if b == [] {
      assert a + b == a;
    } else {
      CreditedToJoin(a, b[..|b| - 1], who);
      assert (a + b)[..|a + b| - 1] == a + b[..|b| - 1];
    }
  }

  lemma OneCredit(to: nat, x: int, who: nat)
    ensures Ledger.CreditedTo([(to, x)], who) == if to == who then x else 0
    ensures Ledger.SumCredits([(to, x)]) == x
  {
    assert [(to, x)][..0] == [];
  }

  lemma {:induction false} LaterCreditsAreParts(payees: seq<(nat, nat)>, net: nat, n: nat, who: nat)
    requires n <= |payees|
    ensures Ledger.CreditedTo(LaterCredits(payees[..n], net), who) == LaterPartsOf(payees, net, who, n)
    ensures Ledger.SumCredits(LaterCredits(payees[..n], net)) == LaterParts(payees, net, n)
  {
    if n > 1 {
      LaterCreditsAreParts(payees, net, n - 1, who);
      var part := (net * payees[n - 1].1) / 10_000;
      assert payees[..n][..n - 1] == payees[..n - 1];
      ChargeMath.MulMono(0, net, payees[n - 1].1);
      CreditedToJoin(LaterCredits(payees[..n - 1], net), [(payees[n - 1].0, part)], who);
      SumCreditsAppend(LaterCredits(payees[..n - 1], net), payees[n - 1].0, part);
      OneCredit(payees[n - 1].0, part, who);
    }
  }

  lemma PayeeCreditsAreParts(a: Account, merchant: nat, net: nat, who: nat)
    ensures Ledger.CreditedTo(PayeeCredits(a, merchant, net), who) == PayeePart(a.split, merchant, net, who)
  {
    if a.split.None? {
      OneCredit(merchant, net, who);
    } else if a.split.value != [] {
      var payees := a.split.value;
      LaterCreditsAreParts(payees, net, |payees|, who);
      assert payees[..|payees|] == payees;
      CreditedToJoin(LaterCredits(payees, net), FirstCredit(payees, net), who);
      OneCredit(payees[0].0, net - Ledger.SumCredits(LaterCredits(payees, net)), who);
    }
  }

  /** The treasury is credited last, with the rate's part of the amount rounded down and at least
      one unit, and the payees share exactly the rest; without a rate or a treasury they share all. */
  lemma TreasuryGetsFee(a: Account, merchant: nat, amount: nat, feeBps: nat, treasury: Option<nat>)
    requires ValidSplit(a.split)
    ensures var credits := Credits(a, merchant, amount, feeBps, treasury);
            if feeBps > 0 && treasury.Some? then
              var fee := Max((amount * feeBps) / 10_000, 1);
              && credits == credits[..|credits| - 1] + [(treasury.value, fee)]
              && Ledger.SumCredits(credits[..|credits| - 1]) == amount - fee
            else Ledger.SumCredits(credits) == amount && credits == PayeeCredits(a, merchant, amount)
  {
    hide PayeeCredits, ValidSplit;
    ChargeMath.MulMono(0, feeBps, amount);
    PayeeCreditsSum(a, merchant, amount);
    if feeBps > 0 && treasury.Some? {
      var fee := Max((amount * feeBps) / 10_000, 1);
      PayeeCreditsSum(a, merchant, amount - fee);
      var payees := PayeeCredits(a, merchant, amount - fee);
      assert Credits(a, merchant, amount, feeBps, treasury) == payees + [(treasury.value, fee)];
    } else {
      assert PayeeCredits(a, merchant, amount) + [] == PayeeCredits(a, merchant, amount);
    }
  }

  /** What the list credits to a party is what it gets. */
  lemma CreditsAreGets(a: Account, merchant: nat, amount: nat, feeBps: nat, treasury: Option<nat>, who: nat)
    requires Fee(amount, feeBps, treasury) <= amount
    ensures Ledger.CreditedTo(Credits(a, merchant, amount, feeBps, treasury), who) == Gets(a.split, merchant, amount, feeBps, treasury, who)
  {
    hide PayeeCredits, PayeePart, Ledger.CreditedTo;
    ChargeMath.MulMono(0, feeBps, amount);
    var fee := Fee(amount, feeBps, treasury);
    assert ChargeMath.FeeSplit(amount, feeBps, treasury.Some?) == (amount - fee, fee);
    PayeeCreditsAreParts(a, merchant, amount - fee, who);
    var payees := PayeeCredits(a, merchant, amount - fee);
    if fee > 0 {
      CreditedToJoin(payees, [(treasury.value, fee)], who);
      OneCredit(treasury.value, fee, who);
    } else {
      assert payees + [] == payees;
    }
  }

  lemma OneReceived(l: Ledger.Ledger, to: nat, token: nat, amount: int, kind: StatementLog.Kind, who: nat, t: nat)
    requires Ledger.Credit(l, to, token, amount, kind).1.None?
    ensures amount >= 0
    ensures Received(l, Ledger.Credit(l, to, token, amount, kind).0, token, kind, who, t, if t == token && who == to then amount else 0)
  {}

  lemma ReceivedTwice(l: Ledger.Ledger, m: Ledger.Ledger, n: Ledger.Ledger, token: nat, kind: StatementLog.Kind, who: nat, t: nat, x: nat, y: nat)
    requires Received(l, m, token, kind, who, t, x) && Received(m, n, token, kind, who, t, y)
    ensures Received(l, n, token, kind, who, t, x + y)
  {}

  /** A complete list of credits: what each party receives, in each token. */
  lemma {:induction false} CompleteReceived(l: Ledger.Ledger, credits: seq<(nat, int)>, token: nat, kind: StatementLog.Kind, who: nat, t: nat)
    requires Ledger.CreditAll(l, credits, token, kind).1.None?
    ensures Ledger.CreditedTo(credits, who) >= 0
    ensures Received(l, Ledger.CreditAll(l, credits, token, kind).0, token, kind, who, t, if t == token then Ledger.CreditedTo(credits, who) else 0)
  {
    hide Ledger.Credit;
    if credits == [] {
      assert Received(l, l, token, kind, who, t, 0);
    } else {
      hide Received;
      var init, last := credits[..|credits| - 1], credits[|credits| - 1];
      CompleteReceived(l, init, token, kind, who, t);
      var m := Ledger.CreditAll(l, init, token, kind).0;
      OneReceived(m, last.0, token, last.1, kind, who, t);
      var x := if t == token then Ledger.CreditedTo(init, who) else 0;
      var y := if t == token && who == last.0 then last.1 else 0;
      ReceivedTwice(l, m, Ledger.CreditAll(l, credits, token, kind).0, token, kind, who, t, x, y);
    }
  }

  lemma FloorPart(amount: nat, bps: nat)
    requires bps <= 10_000
    ensures 0 <= (amount * bps) / 10_000 <= amount
  {
    var x := amount * bps;
    ChargeMath.MulMono(0, amount, bps);
    ChargeMath.MulMono(bps, 10_000, amount);
    assert 0 <= x <= 10_000 * amount;
    ChargeMath.DivMono(x, 10_000 * amount, 10_000);
    ChargeMath.DivMono(0, x, 10_000);
  }

  lemma FeeWithinAmount(amount: int, feeBps: nat, treasury: Option<nat>)
    requires 1 <= amount && feeBps <= 10_000
    ensures 0 <= Fee(amount, feeBps, treasury) <= amount
  {
    FloorPart(amount, feeBps);
  }

  /** A charge whose credits all went through has been distributed. */
  lemma CreditsDistribute(l: Ledger.Ledger, a: Account, merchant: nat, amount: nat, feeBps: nat, treasury: Option<nat>, token: nat, kind: StatementLog.Kind)
    requires ValidSplit(a.split) && feeBps <= 10_000
    requires Ledger.CreditAll(l, Credits(a, merchant, amount, feeBps, treasury), token, kind).1.None?
    ensures Distributed(l, Ledger.CreditAll(l, Credits(a, merchant, amount, feeBps, treasury), token, kind).0, token, kind,
                        a.split, merchant, amount, feeBps, treasury)
  {
    hide Credits, Ledger.CreditAll, Received, Gets, ValidSplit, Ledger.CreditedTo;
    if amount == 0 {
      if feeBps > 0 && treasury.Some? { ZeroChargeWithFee(a, merchant, feeBps, treasury, l, token, kind); }
    } else {
      FeeWithinAmount(amount, feeBps, treasury);
    }
    var credits := Credits(a, merchant, amount, feeBps, treasury);
    var l' := Ledger.CreditAll(l, credits, token, kind).0;
    forall who, t ensures Gained(l, l', token, kind, a.split, merchant, amount, feeBps, treasury, who, t)
    {
      CreditsAreGets(a, merchant, amount, feeBps, treasury, who);
      CompleteReceived(l, credits, token, kind, who, t);
    }
  }

  // ----- Parts of the invariant a charge relies on -----

  lemma AccountFacts(a: Account, now: nat)
    requires AccountInv(a, now)
    ensures Shape(a, now) && ValidSplit(a.split) && KeysOk(a.idem, now) && a.sub.startTime <= now
  {}

  lemma InvFacts(v: Vault)
    requires Inv(v)
    ensures ConfigOk(v.cfg) && v.now <= U64_MAX && v.cfg.feeBps <= 10_000
  {}

  lemma SameCredits(a: Account, b: Account, amount: int, feeBps: nat, treasury: Option<nat>)
    requires a.split == b.split
    ensures Credits(a, b.sub.merchant, amount, feeBps, treasury) == Credits(b, b.sub.merchant, amount, feeBps, treasury)
  {}

  // ----- When an interval charge is settled -----

  /** The key was used less than the time to live ago. */
  ghost predicate KeyIsLive(a: Account, id: nat, key: Option<nat>, now: nat, ttl: nat) {
    key.Some? && exists i :: 0 <= i < |a.idem.entries| && UsedFor(a.idem.entries[i], id, key.value) && now - a.idem.entries[i].insertedAt < ttl
  }

  /** The entry stands for this raw key of this subscription in the domain of interval charges. */
  predicate UsedFor(e: IdemRing.Entry, id: nat, raw: nat) { e.key == IdemRing.Fingerprint(5, id, raw) }

  predicate HasExpired(s: Subscription, now: nat, ledgerSeq: nat) {
    (s.expiresAt.Some? && s.expiresAt.value <= now) || (s.expiresAtLedger.Some? && s.expiresAtLedger.value <= ledgerSeq)
  }

  /** Everything that must hold for a payment to be taken: the subscription is alive, within its cap
      and renewing, not due for cancellation, the key is fresh, the period unpaid, an interval has
      passed and the balance covers the price. */
  ghost predicate PaymentDue(cfg: Config, a: Account, id: nat, now: nat, ledgerSeq: nat, key: Option<nat>) {
    && !HasExpired(a.sub, now, ledgerSeq)
    && a.sub.status in {Active, GracePeriod, InsufficientFunds} && a.sub.autoRenew
    && (a.sub.cancelAt.Some? ==> now < a.sub.cancelAt.value)
    && (a.sub.lifetimeCap.Some? ==> a.sub.lifetimeCharged < a.sub.lifetimeCap.value && a.sub.lifetimeCharged + Payable(cfg, a, now) <= a.sub.lifetimeCap.value)
    && !KeyIsLive(a, id, key, now, cfg.idemTtl)
    && (a.chargedPeriod.Some? ==> a.chargedPeriod.value < (now - a.sub.startTime) / a.sub.interval)
    && a.sub.lastPayment + a.sub.interval <= now
    && Payable(cfg, a, now) <= a.sub.prepaid
  }

  lemma KeyCheckIsLive(a: Account, id: nat, key: nat, now: nat, ttl: nat)
    requires KeysOk(a.idem, now)
    ensures IdemRing.CheckKey(a.idem, Fingerprint(id, key), now, ttl) <==> KeyIsLive(a, id, Some(key), now, ttl)
  {
    if IdemRing.CheckKey(a.idem, Fingerprint(id, key), now, ttl) {
      var i :| 0 <= i < |a.idem.entries| && a.idem.entries[i].key == Fingerprint(id, key) && IdemRing.Live(a.idem.entries[i], now, ttl);
      assert UsedFor(a.idem.entries[i], id, key);
    }
  }

  lemma KeyGate(a: Account, id: nat, key: Option<nat>, now: nat, ttl: nat)
    requires KeysOk(a.idem, now)
    ensures KeyIsLive(a, id, key, now, ttl) <==> key.Some? && IdemRing.CheckKey(a.idem, Fingerprint(id, key.value), now, ttl)
  {
    if key.Some? { KeyCheckIsLive(a, id, key.value, now, ttl); }
  }

  /** Past the status gates a covered price is settled. */
  lemma CoveredSettles(admin: Admin, a: Account, s: Subscription, id: nat, now: nat, key: Option<nat>, ttl: nat, amount: int)
    requires s.lastPayment + s.interval <= now <= U64_MAX && 0 <= amount <= s.prepaid
    requires s.lifetimeCap.Some? ==> s.lifetimeCharged + amount <= s.lifetimeCap.value
    requires a.chargedPeriod.Some? ==> a.chargedPeriod.value < CurrentPeriod(s, now)
    requires !(key.Some? && IdemRing.CheckKey(a.idem, Fingerprint(id, key.value), now, ttl))
    ensures DecideReplay(admin, a, s, id, now, key, ttl, amount).Settle?
  {
    hide IdemRing.CheckKey;
  }

  /** Payment that is due is settled. */
  lemma DueIsSettled(cfg: Config, admin: Admin, a: Account, id: nat, now: nat, ledgerSeq: nat, key: Option<nat>)
    requires ConfigOk(cfg) && AccountInv(a, now) && now <= U64_MAX && PaymentDue(cfg, a, id, now, ledgerSeq, key)
    ensures DecideInterval(cfg, admin, a, id, now, ledgerSeq, key).Settle?
  {
    hide AccountInv, ConfigOk, KeyIsLive, IdemRing.CheckKey, Payable, ChargeAmount, DecideReplay, KeysOk, CanTransition, SaturatingAdd64;
    AccountFacts(a, now);
    KeyGate(a, id, key, now, cfg.idemTtl);
    PayableIsDiscounted(cfg, a, now);
    ProrationNeverBites(cfg, a, now);
    CoveredSettles(admin, a, Effective(a.sub, cfg.gracePeriod, now), id, now, key, cfg.idemTtl, Payable(cfg, a, now));
  }

  /** A charge goes to settlement if and only if payment is due, and then what is settled is the
      price of the period that starts where the last one was paid. */
  lemma SettlesIff(cfg: Config, admin: Admin, a: Account, id: nat, now: nat, ledgerSeq: nat, key: Option<nat>)
    requires ConfigOk(cfg) && AccountInv(a, now) && now <= U64_MAX
    ensures var d := DecideInterval(cfg, admin, a, id, now, ledgerSeq, key);
            && (d.Settle? <==> PaymentDue(cfg, a, id, now, ledgerSeq, key))
            && (d.Settle? ==>
                  && d.plan.amount == Payable(cfg, a, now) >= 0
                  && d.plan.period == (now - a.sub.startTime) / a.sub.interval
                  && d.plan.nextAllowed == a.sub.lastPayment + a.sub.interval
                  && d.plan.sub == a.sub.(status := d.plan.sub.status)
                  && (d.plan.sub.status == Active <==> a.sub.status == Active)
                  && d.plan.sub.status in {Active, GracePeriod, InsufficientFunds})
  {
    hide KeyIsLive, Billing, PeriodsOk, IdemRing.CheckKey, Payable, DecideLive;
    var d := DecideInterval(cfg, admin, a, id, now, ledgerSeq, key);
    if d.Settle? {
      SettleGuards(cfg, admin, a, id, now, ledgerSeq, key);
      KeyGate(a, id, key, now, cfg.idemTtl);
      NoCancellationDue(cfg, admin, a, id, now, ledgerSeq, key);
    } else if PaymentDue(cfg, a, id, now, ledgerSeq, key) {
      DueIsSettled(cfg, admin, a, id, now, ledgerSeq, key);
    }
  }

  lemma NoCancellationDue(cfg: Config, admin: Admin, a: Account, id: nat, now: nat, ledgerSeq: nat, key: Option<nat>)
    requires DecideInterval(cfg, admin, a, id, now, ledgerSeq, key).Settle?
    ensures a.sub.cancelAt.Some? ==> now < a.sub.cancelAt.value
  {
    hide ChargeAmount, DecideRenewal, StatusObstacle, CanTransition;
  }

  // ----- What a settled interval charge leaves behind -----

  /** The subscription: debited, current, out of any grace, and cancelled if its cap is reached. */
  predicate PaidSubscription(s: Subscription, s': Subscription, amount: int, now: nat) {
    && s'.prepaid == s.prepaid - amount
    && s'.lifetimeCharged == s.lifetimeCharged + amount
    && s'.lastPayment == now
    && s'.status == (if s.lifetimeCap.Some? && s.lifetimeCharged + amount >= s.lifetimeCap.value then Cancelled else Active)
    && s'.graceStart == (if s.status == Active then s.graceStart else None)
    && s' == s.(prepaid := s'.prepaid, lifetimeCharged := s'.lifetimeCharged, lastPayment := now, status := s'.status, graceStart := s'.graceStart)
  }

  /** The log: one more statement with the next number. */
  predicate Listed(log: StatementLog.Log, log': StatementLog.Log, at: nat, start: nat, amount: int, merchant: nat, token: nat, kind: StatementLog.Kind) {
    var n := log.lastSeq + 1;
    log' == StatementLog.Log(n, log.records[n := StatementLog.Statement(n, at, start, at, amount, merchant, token, kind)], log.index + [n], log.agg)
  }

  function ChargedIn(snaps: Snapshots.Store, period: nat): int { if period in snaps.snaps then snaps.snaps[period].charged else 0 }

  function UnitsIn(snaps: Snapshots.Store, period: nat): int { if period in snaps.snaps then snaps.snaps[period].units else 0 }

  predicate UsageIn(snaps: Snapshots.Store, period: nat) { period in snaps.snaps && snaps.snaps[period].flags.usageCharged }

  /** The period's snapshot: closed, with the interval charge added to what usage was charged before. */
  predicate ClosedFor(snaps: Snapshots.Store, snaps': Snapshots.Store, period: nat, amount: int) {
    && period in snaps'.snaps
    && var f := snaps'.snaps[period];
       && f.period == period && f.charged == ChargedIn(snaps, period) + amount && f.units == UnitsIn(snaps, period)
       && f.flags.closed && f.flags.intervalCharged && (f.flags.usageCharged <==> UsageIn(snaps, period))
  }

  /** The keys: those still live, and the new one. */
  ghost predicate Remembered(idem: IdemRing.Buffer, idem': IdemRing.Buffer, id: nat, key: Option<nat>, now: nat, ttl: nat) {
    match key
    case None => idem' == idem
    case Some(raw) =>
      var latest := IdemRing.Entry(IdemRing.Fingerprint(5, id, raw), now);
      forall e :: e in idem'.entries <==> e == latest || (e in idem.entries && now - e.insertedAt < ttl)
  }

  /** The account after a payment: these records and the charged period, and nothing else. */
  ghost predicate Paid(a: Account, a': Account, id: nat, amount: int, now: nat, key: Option<nat>, ttl: nat) {
    && a.sub.startTime <= now
    && PaidSubscription(a.sub, a'.sub, amount, now)
    && Listed(a.log, a'.log, now, a.sub.lastPayment, amount, a.sub.merchant, a.sub.token, StatementLog.Interval)
    && a'.chargedPeriod == Some((now - a.sub.startTime) / a.sub.interval)
    && ClosedFor(a.snaps, a'.snaps, a'.chargedPeriod.value, amount)
    && Remembered(a.idem, a'.idem, id, key, now, ttl)
    && a' == a.(sub := a'.sub, log := a'.log, snaps := a'.snaps, idem := a'.idem, chargedPeriod := a'.chargedPeriod, failures := 0)
  }

  predicate PlanFor(a: Account, p: Plan, now: nat) {
    && a.sub.startTime <= now
    && p.period == (now - a.sub.startTime) / a.sub.interval
    && p.nextAllowed == a.sub.lastPayment + a.sub.interval <= now
    && p.sub == a.sub.(status := p.sub.status)
    && (p.sub.status == Active <==> a.sub.status == Active)
    && p.sub.status in {Active, GracePeriod, InsufficientFunds}
  }

  lemma PushRemembers(b: IdemRing.Buffer, id: nat, raw: nat, now: nat, ttl: nat)
    requires KeysOk(b, now)
    ensures var r := IdemRing.PushKey(b, Fingerprint(id, raw), now, ttl); r.Ok? ==> Remembered(b, r.value, id, Some(raw), now, ttl)
  {
    var r := IdemRing.PushKey(b, Fingerprint(id, raw), now, ttl);
    if r.Ok? {
      assert IdemRing.Ordered(b) == b.entries;
      forall e
        ensures e in r.value.entries <==> e == IdemRing.Entry(IdemRing.Fingerprint(5, id, raw), now) || (e in b.entries && now - e.insertedAt < ttl)
      {
        IdemRing.FilterMembers(b.entries, now, ttl, e);
      }
    }
  }

  lemma NothingPushed(b: IdemRing.Buffer, id: nat, now: nat, ttl: nat)
    ensures Remembered(b, b, id, None, now, ttl)
  {}

  /** Writing a snapshot stores it, merged with an open one of the period. */
  lemma WriteStores(a: Account, s: Snapshots.Snapshot, now: nat)
    requires PeriodsOk(a, now) && s.period == CurrentPeriod(a.sub, now) && Snapshots.Write(a.snaps, s).Ok?
    ensures s.period in Snapshots.Write(a.snaps, s).value.snaps
    ensures var f := Snapshots.Write(a.snaps, s).value.snaps[s.period];
            && f.period == s.period
            && f.charged == ChargedIn(a.snaps, s.period) + s.charged && f.units == UnitsIn(a.snaps, s.period) + s.units
            && (f.flags.closed <==> s.flags.closed)
            && (f.flags.usageCharged <==> s.flags.usageCharged || UsageIn(a.snaps, s.period))
            && (s.flags.intervalCharged ==> f.flags.intervalCharged)
  {
    Snapshots.FinalShape(a.snaps, s);
    Snapshots.PutKeeps(a.snaps, Snapshots.Final(a.snaps, s).value);
  }

  /** Recording a settled charge in full leaves the account paid. */
  lemma RecordPays(cfg: Config, a: Account, p: Plan, id: nat, now: nat, key: Option<nat>)
    requires AccountInv(a, now) && PlanFor(a, p, now)
    requires RecordInterval(cfg, a, p, id, now, key).1.Ok?
    ensures Paid(a, RecordInterval(cfg, a, p, id, now, key).0, id, p.amount, now, key, cfg.idemTtl)
  {
    hide Snapshots.Write, IdemRing.PushKey, Billing, PeriodsOk, KeysOk, Remembered;
    WriteStores(a, IntervalSnapshot(p, now), now);
    if key.Some? { PushRemembers(a.idem, id, key.value, now, cfg.idemTtl); } else { NothingPushed(a.idem, id, now, cfg.idemTtl); }
  }

  // ----- The interval charge as a call -----

  predicate CanReceive(cfg: Config, who: nat, now: nat) {
    && who !in cfg.blocked
    && !(who in cfg.paused && cfg.paused[who])
    && !(who in cfg.vacations && cfg.vacations[who].0 <= now < cfg.vacations[who].1)
  }

  /** Nobody the charge concerns is blocklisted, and nobody it pays is paused or on vacation. */
  ghost predicate PartiesReady(cfg: Config, a: Account, now: nat) {
    && a.sub.subscriber !in cfg.blocked && CanReceive(cfg, a.sub.merchant, now)
    && (a.split.Some? ==> forall i :: 0 <= i < |a.split.value| ==> CanReceive(cfg, a.split.value[i].0, now))
  }

  lemma {:induction false} NoPayeeObstacle(cfg: Config, payees: seq<(nat, nat)>, now: nat)
    ensures PayeeObstacle(cfg, payees, now).None? <==> forall i :: 0 <= i < |payees| ==> CanReceive(cfg, payees[i].0, now)
  {
    if payees != [] {
      NoPayeeObstacle(cfg, payees[1..], now);
      assert forall i :: 0 < i < |payees| ==> payees[i] == payees[1..][i - 1];
    }
  }

  /** Those a charge pays: the merchant and the payees of its split. */
  function Paying(a: Account): set<nat> {
    {a.sub.merchant} + (if a.split.Some? then set i | 0 <= i < |a.split.value| :: a.split.value[i].0 else {})
  }

  predicate CannotReceive(cfg: Config, who: nat, now: nat, e: Error) {
    match e
    case MerchantPaused => who in cfg.paused && cfg.paused[who]
    case VacationActive => who in cfg.vacations && cfg.vacations[who].0 <= now < cfg.vacations[who].1
    case SubscriberBlocklisted => who in cfg.blocked
    case _ => false
  }

  /** The reason a charge is refused on account of its parties. */
  ghost predicate RefusedFor(cfg: Config, a: Account, now: nat, e: Error) {
    (e == SubscriberBlocklisted && a.sub.subscriber in cfg.blocked) || exists who :: who in Paying(a) && CannotReceive(cfg, who, now, e)
  }

  lemma {:induction false} PayeeObstacleIs(cfg: Config, payees: seq<(nat, nat)>, now: nat)
    requires PayeeObstacle(cfg, payees, now).Some?
    ensures exists i :: 0 <= i < |payees| && CannotReceive(cfg, payees[i].0, now, PayeeObstacle(cfg, payees, now).value)
  {
    if CanReceive(cfg, payees[0].0, now) {
      PayeeObstacleIs(cfg, payees[1..], now);
      var i :| 0 <= i < |payees[1..]| && CannotReceive(cfg, payees[1..][i].0, now, PayeeObstacle(cfg, payees[1..], now).value);
      assert payees[i + 1] == payees[1..][i];
    }
  }

  /** Charges pass the gate of the parties exactly when all of them are ready, and are refused for
      a true reason. */
  lemma PartiesReadyIff(cfg: Config, a: Account, now: nat)
    ensures var e := PartyObstacle(cfg, a, MerchantStatus(cfg, a.sub.merchant, now), now);
            && (e.None? <==> PartiesReady(cfg, a, now))
            && (e.Some? ==> RefusedFor(cfg, a, now, e.value))
  {
    assert a.sub.merchant in Paying(a);
    if a.split.Some? {
      NoPayeeObstacle(cfg, a.split.value, now);
      if PayeeObstacle(cfg, a.split.value, now).Some? {
        PayeeObstacleIs(cfg, a.split.value, now);
        var i :| 0 <= i < |a.split.value| && CannotReceive(cfg, a.split.value[i].0, now, PayeeObstacle(cfg, a.split.value, now).value);
        assert a.split.value[i].0 in Paying(a);
      }
    }
  }

  /** A payment has been taken: the price was distributed and the account is paid. */
  ghost predicate Taken(v: Vault, v': Vault, id: nat, key: Option<nat>, feeBps: nat, treasury: Option<nat>)
    requires id in v.accounts
  {
    var a := v.accounts[id];
    && id in v'.accounts
    && Distributed(v.ledger, v'.ledger, a.sub.token, StatementLog.Interval, a.split, a.sub.merchant, Payable(v.cfg, a, v.now), feeBps, treasury)
    && Paid(a, v'.accounts[id], id, Payable(v.cfg, a, v.now), v.now, key, v.cfg.idemTtl)
    && v' == v.(ledger := v'.ledger, accounts := v.accounts[id := v'.accounts[id]])
  }

  lemma IntervalPassed(cfg: Config, a: Account, id: nat, now: nat, ledgerSeq: nat, key: Option<nat>)
    requires PaymentDue(cfg, a, id, now, ledgerSeq, key)
    ensures a.sub.lastPayment + a.sub.interval <= now
  {}

  lemma CarrySettles(v: Vault, id: nat, settings: Admin, key: Option<nat>, d: Decision)
    requires id in v.accounts && d.Settle?
    ensures Carry(v, id, settings, key, d) == SettleInterval(v, id, settings, d.plan, key)
  {}

  lemma SettlementTakes(v: Vault, id: nat, settings: Admin, p: Plan, key: Option<nat>)
    requires Inv(v) && id in v.accounts && settings.feeBps <= 10_000
    requires PlanFor(v.accounts[id], p, v.now) && p.amount == Payable(v.cfg, v.accounts[id], v.now) >= 0
    requires SettleInterval(v, id, settings, p, key).1.Ok?
    ensures Taken(v, SettleInterval(v, id, settings, p, key).0, id, key, settings.feeBps, settings.treasury)
  {
    var a := v.accounts[id];
    assert p.sub == a.sub.(status := p.sub.status);
    hide Credits, Ledger.CreditAll, RecordInterval, Distributed, Paid, PlanFor, Payable, Inv, AccountInv;
    Known(v, id);
    AccountFacts(a, v.now);
    CreditsDistribute(v.ledger, a, a.sub.merchant, p.amount, settings.feeBps, settings.treasury, a.sub.token, StatementLog.Interval);
    RecordPays(v.cfg, a, p, id, v.now, key);
  }

  /** Whatever the caller, single or batch: a charge that succeeds with a fresh key has taken a
      payment that was due, and one that was due can only succeed by taking it. */
  lemma ChargedIsTaken(v: Vault, id: nat, key: Option<nat>, admin: Option<Admin>, cache: Option<Cache>)
    requires Inv(v) && id in v.accounts && (admin.Some? ==> admin.value.feeBps <= 10_000)
    requires var c := ChargeOne(v, id, key, admin, cache);
             || (c.result == Ok(Charged) && !KeyIsLive(v.accounts[id], id, key, v.now, v.cfg.idemTtl))
             || (c.result.Ok? && PaymentDue(v.cfg, v.accounts[id], id, v.now, v.ledgerSeq, key))
    ensures var c, settings := ChargeOne(v, id, key, admin, cache), if admin.Some? then admin.value else StoredAdmin(v.cfg);
            && c.result == Ok(Charged)
            && PaymentDue(v.cfg, v.accounts[id], id, v.now, v.ledgerSeq, key)
            && Taken(v, c.vault, id, key, settings.feeBps, settings.treasury)
  {
    hide Inv, PartyObstacle, LookupStatus, DecideInterval, SettleInterval, Taken, PaymentDue, Payable, AccountInv, KeyIsLive;
    var a, settings := v.accounts[id], if admin.Some? then admin.value else StoredAdmin(v.cfg);
    Known(v, id);
    InvFacts(v);
    SettlesIff(v.cfg, settings, a, id, v.now, v.ledgerSeq, key);
    var d := DecideInterval(v.cfg, settings, a, id, v.now, v.ledgerSeq, key);
    if d.Settle? {
      AccountFacts(a, v.now);
      IntervalPassed(v.cfg, a, id, v.now, v.ledgerSeq, key);
      SettlementTakes(v, id, settings, d.plan, key);
      SettlementSays(v, id, settings, d.plan, key);
    } else {
      UnsettledIsNotCharged(v, id, settings, key);
    }
  }

  lemma SettlementSays(v: Vault, id: nat, settings: Admin, p: Plan, key: Option<nat>)
    requires id in v.accounts && SettleInterval(v, id, settings, p, key).1.Ok?
    ensures SettleInterval(v, id, settings, p, key).1 == Ok(Charged)
  {
    hide Credits, Ledger.CreditAll, Snapshots.Write, StatementLog.Append, IdemRing.PushKey;
  }

  /** Without settlement only a key in use is answered as charged. */
  lemma UnsettledIsNotCharged(v: Vault, id: nat, settings: Admin, key: Option<nat>)
    requires Inv(v) && id in v.accounts
    requires var d := DecideInterval(v.cfg, settings, v.accounts[id], id, v.now, v.ledgerSeq, key);
             !d.Settle? && Carry(v, id, settings, key, d).1 == Ok(Charged)
    ensures KeyIsLive(v.accounts[id], id, key, v.now, v.cfg.idemTtl)
  {
    hide Inv, ChargeAmount, CanTransition, KeyIsLive, IdemRing.CheckKey, AccountInv, Pay;
    Known(v, id);
    if key.Some? {
      AccountFacts(v.accounts[id], v.now);
      KeyCheckIsLive(v.accounts[id], id, key.value, v.now, v.cfg.idemTtl);
    }
  }

  // ----- Charges that take no payment -----

  /** The subscription has used up its cap, or the price would exceed it. */
  predicate CapStops(s: Subscription, price: int) {
    s.lifetimeCap.Some? && (s.lifetimeCharged >= s.lifetimeCap.value || s.lifetimeCharged + price > s.lifetimeCap.value)
  }

  predicate CancellationDue(s: Subscription, now: nat) { s.cancelAt.Some? && s.cancelAt.value <= now }

  /** What an outcome says is so. */
  ghost predicate Explained(cfg: Config, admin: Admin, a: Account, id: nat, now: nat, ledgerSeq: nat, key: Option<nat>, r: Result<Outcome>) {
    var s, price, next := a.sub, Payable(cfg, a, now), a.sub.lastPayment + a.sub.interval;
    match r
    case Ok(Charged) => KeyIsLive(a, id, key, now, cfg.idemTtl)
    case Ok(Underfunded) => s.prepaid < price && next <= now
    case Ok(CapReached) => CapStops(s, price)
    case Ok(ScheduledCancellation) => CancellationDue(s, now)
    case Ok(Skipped) => !s.autoRenew && next <= now
    case Err(SubscriptionExpired) => HasExpired(s, now, ledgerSeq)
    case Err(NotActive) => s.status in {Paused, Cancelled, Expired, Archived} || (s.status in {GracePeriod, InsufficientFunds} && now < next)
    case Err(Replay) => a.chargedPeriod.Some? && a.chargedPeriod.value >= CurrentPeriod(s, now)
    case Err(IntervalNotElapsed) => now < next
    case Err(NotInitialized) => s.prepaid < price && admin.gracePeriod.None?
    case Err(InvalidStatusTransition) => HasExpired(s, now, ledgerSeq) || CapStops(s, price) || CancellationDue(s, now) || s.prepaid < price
    case Err(Overflow) => next > U64_MAX
    case _ => false
  }

  /** What a charge without payment does to the account: it expires, is cancelled with its balance
      refunded, is cancelled at its cap, is underfunded, or is left alone. */
  predicate LeavesAccount(a: Account, d: Decision) {
    match d
    case Refund(a', payout) => payout == a.sub.prepaid && a' == a.(sub := a.sub.(status := Cancelled, prepaid := 0, cancelAt := None))
    case Settle(_) => false
    case Finish(a', r) =>
      match r
      case Ok(Underfunded) => true
      case Ok(CapReached) => a' == a.(sub := a.sub.(status := Cancelled))
      case Err(SubscriptionExpired) => a' == a.(sub := a.sub.(status := Expired))
      case _ => a' == a
  }

  lemma AmountExists(cfg: Config, a: Account, now: nat)
    requires ConfigOk(cfg) && Shape(a, now) && now <= U64_MAX
    ensures ChargeAmount(cfg, a, now).Ok?
  {
    PayableIsDiscounted(cfg, a, now);
    ChargeMath.ProrationIsExactFloor(Payable(cfg, a, now), a.sub.interval, SaturatingSub(now, a.sub.startTime));
  }

  lemma UnderfundedSays(admin: Admin, a: Account, s: Subscription, now: nat)
    ensures var d := DecideUnderfunded(admin, a, s, now);
            && d.Finish?
            && (d.result == Ok(Underfunded) || (d.account == a && d.result == Err(InvalidStatusTransition))
                || (d.account == a && d.result == Err(NotInitialized) && admin.gracePeriod.None?))
  {
    hide SaturatingAdd32, SaturatingAdd64, CanTransition;
  }

  /** The ways in which the gates from the key on end a charge. */
  lemma ReplayCases(admin: Admin, a: Account, s: Subscription, id: nat, now: nat, key: Option<nat>, ttl: nat, amount: int)
    requires s == a.sub.(status := s.status)
    ensures var d, next := DecideReplay(admin, a, s, id, now, key, ttl, amount), a.sub.lastPayment + a.sub.interval;
            !d.Settle? ==>
              || (d == Finish(a, Ok(Charged)) && key.Some? && IdemRing.CheckKey(a.idem, Fingerprint(id, key.value), now, ttl))
              || (d == Finish(a, Err(Replay)) && a.chargedPeriod.Some? && a.chargedPeriod.value >= CurrentPeriod(a.sub, now))
              || (d == Finish(a, Err(Overflow)) && next > U64_MAX)
              || (d == Finish(a, Err(IntervalNotElapsed)) && now < next)
              || (d in {Finish(a.(sub := a.sub.(status := Cancelled)), Ok(CapReached)), Finish(a, Err(InvalidStatusTransition))}
                  && next <= now && a.sub.lifetimeCap.Some? && a.sub.lifetimeCharged + amount > a.sub.lifetimeCap.value)
              || (d == DecideUnderfunded(admin, a, s, now) && next <= now && !(0 <= amount <= a.sub.prepaid))
  {
    hide DecideUnderfunded, CanTransition, IdemRing.CheckKey;
  }

  /** Each of them has its reason. */
  lemma ReplayIsExplained(cfg: Config, admin: Admin, a: Account, s: Subscription, id: nat, now: nat, ledgerSeq: nat, key: Option<nat>)
    requires ConfigOk(cfg) && AccountInv(a, now) && now <= U64_MAX && s == a.sub.(status := s.status)
    requires ChargeAmount(cfg, a, now).Ok?
    ensures var d := DecideReplay(admin, a, s, id, now, key, cfg.idemTtl, ChargeAmount(cfg, a, now).value);
            !d.Settle? ==> d.Finish? && LeavesAccount(a, d) && Explained(cfg, admin, a, id, now, ledgerSeq, key, d.result)
  {
    hide AccountInv, ConfigOk, KeyIsLive, IdemRing.CheckKey, Payable, ChargeAmount, DecideReplay, DecideUnderfunded, KeysOk, HasExpired, CurrentPeriod;
    AccountFacts(a, now);
    KeyGate(a, id, key, now, cfg.idemTtl);
    PayableIsDiscounted(cfg, a, now);
    UnderfundedSays(admin, a, s, now);
    ReplayCases(admin, a, s, id, now, key, cfg.idemTtl, ChargeAmount(cfg, a, now).value);
    if a.sub.lastPayment + a.sub.interval <= now { ProrationNeverBites(cfg, a, now); }
  }

  /** The gates from renewal on. */
  lemma RenewalIsExplained(cfg: Config, admin: Admin, a: Account, s: Subscription, id: nat, now: nat, ledgerSeq: nat, key: Option<nat>)
    requires ConfigOk(cfg) && AccountInv(a, now) && now <= U64_MAX && s == a.sub.(status := s.status)
    requires ChargeAmount(cfg, a, now).Ok?
    ensures var d := DecideRenewal(admin, a, s, id, now, key, cfg.idemTtl, ChargeAmount(cfg, a, now).value);
            !d.Settle? ==> d.Finish? && LeavesAccount(a, d) && Explained(cfg, admin, a, id, now, ledgerSeq, key, d.result)
  {
    hide AccountInv, KeyIsLive, Payable, ChargeAmount, DecideReplay, HasExpired, CurrentPeriod, ConfigOk, CapStops, CancellationDue;
    ReplayIsExplained(cfg, admin, a, s, id, now, ledgerSeq, key);
  }

  lemma ObstacleIsExplained(cfg: Config, admin: Admin, a: Account, s: Subscription, id: nat, now: nat, ledgerSeq: nat, key: Option<nat>)
    requires s == a.sub.(status := s.status) && (s.status == a.sub.status || (s.status == InsufficientFunds && a.sub.status == GracePeriod))
    requires StatusObstacle(s, now).Some?
    ensures Explained(cfg, admin, a, id, now, ledgerSeq, key, Err(StatusObstacle(s, now).value))
    ensures StatusObstacle(s, now).value in {NotActive, Overflow}
  {
    hide KeyIsLive, Payable, HasExpired, CurrentPeriod;
  }

  /** The gates from the cap on. */
  lemma LiveIsExplained(cfg: Config, admin: Admin, a: Account, s: Subscription, id: nat, now: nat, ledgerSeq: nat, key: Option<nat>)
    requires ConfigOk(cfg) && AccountInv(a, now) && now <= U64_MAX && s == a.sub.(status := s.status)
    requires s.status == a.sub.status || (s.status == InsufficientFunds && a.sub.status == GracePeriod)
    requires ChargeAmount(cfg, a, now).Ok?
    ensures var d := DecideLive(admin, a, s, id, now, key, cfg.idemTtl, ChargeAmount(cfg, a, now).value);
            !d.Settle? ==>
              && LeavesAccount(a, d)
              && (d.Finish? ==> Explained(cfg, admin, a, id, now, ledgerSeq, key, d.result))
              && (d.Refund? ==> CancellationDue(a.sub, now))
  {
    hide AccountInv, KeyIsLive, Payable, ChargeAmount, DecideRenewal, StatusObstacle, CanTransition, HasExpired, CurrentPeriod, ConfigOk;
    if StatusObstacle(s, now).Some? { ObstacleIsExplained(cfg, admin, a, s, id, now, ledgerSeq, key); }
    RenewalIsExplained(cfg, admin, a, s, id, now, ledgerSeq, key);
  }

  /** Every interval charge that is not settled has the reason it reports and the effect that goes
      with it. */
  lemma UnpaidIsExplained(cfg: Config, admin: Admin, a: Account, id: nat, now: nat, ledgerSeq: nat, key: Option<nat>)
    requires ConfigOk(cfg) && AccountInv(a, now) && now <= U64_MAX
    requires !DecideInterval(cfg, admin, a, id, now, ledgerSeq, key).Settle?
    ensures var d := DecideInterval(cfg, admin, a, id, now, ledgerSeq, key);
            && LeavesAccount(a, d)
            && (d.Finish? ==> Explained(cfg, admin, a, id, now, ledgerSeq, key, d.result))
            && (d.Refund? ==> CancellationDue(a.sub, now) && !HasExpired(a.sub, now, ledgerSeq))
  {
    hide AccountInv, KeyIsLive, Payable, ChargeAmount, SaturatingAdd64, DecideLive, CanTransition, CapStops, CancellationDue, CurrentPeriod, ConfigOk;
    AccountFacts(a, now);
    AmountExists(cfg, a, now);
    LiveIsExplained(cfg, admin, a, Effective(a.sub, cfg.gracePeriod, now), id, now, ledgerSeq, key);
  }

  /** The single charge, gate by gate: a stopped contract, an unknown subscription and a party that
      is not ready are refused without effect; otherwise payment that is due is the only thing that
      moves money to anybody but the subscriber. */
  lemma ChargeGates(v: Vault, id: nat, key: Option<nat>)
    requires Inv(v)
    ensures var c := ChargeOne(v, id, key, None, None);
            if v.cfg.emergencyStop then c.vault == v && c.result == Err(EmergencyStopActive)
            else if id !in v.accounts then c.vault == v && c.result == Err(NotFound)
            else if !PartiesReady(v.cfg, v.accounts[id], v.now) then c.vault == v && c.result.Err? && RefusedFor(v.cfg, v.accounts[id], v.now, c.result.error)
            else if !PaymentDue(v.cfg, v.accounts[id], id, v.now, v.ledgerSeq, key) then
              && c.vault.ledger == v.ledger && id in c.vault.accounts
              && Unpaid(v, c.vault, id)
              && (c.result != Err(HostTrap) ==> Explained(v.cfg, StoredAdmin(v.cfg), v.accounts[id], id, v.now, v.ledgerSeq, key, c.result))
            else c.result == Ok(Charged) || c.result.Err?
  {
    hide Inv, PartyObstacle, DecideInterval, Carry, PaymentDue, PartiesReady, RefusedFor, AccountInv, Explained, MerchantStatus, Unpaid;
    if !v.cfg.emergencyStop && id in v.accounts {
      var a := v.accounts[id];
      PartiesReadyIff(v.cfg, a, v.now);
      Known(v, id);
      InvFacts(v);
      SettlesIff(v.cfg, StoredAdmin(v.cfg), a, id, v.now, v.ledgerSeq, key);
      var d := DecideInterval(v.cfg, StoredAdmin(v.cfg), a, id, v.now, v.ledgerSeq, key);
      if d.Settle? {
        if SettleInterval(v, id, StoredAdmin(v.cfg), d.plan, key).1.Ok? { SettlementSays(v, id, StoredAdmin(v.cfg), d.plan, key); }
        CarrySettles(v, id, StoredAdmin(v.cfg), key, d);
      } else {
        UnpaidIsExplained(v.cfg, StoredAdmin(v.cfg), a, id, v.now, v.ledgerSeq, key);
        CarryUnpaid(v, id, key, d);
      }
    }
  }

  /** Without payment the rest of the contract keeps everything, but for the refund of a scheduled
      cancellation, which leaves the contract. */
  ghost predicate Unpaid(v: Vault, v': Vault, id: nat)
    requires id in v.accounts && id in v'.accounts
  {
    var a, a' := v.accounts[id], v'.accounts[id];
    && v' == v.(accounts := v.accounts[id := a'], held := v'.held)
    && (forall t :: Held(v', t) == Held(v, t) - (if t == a.sub.token then a.sub.prepaid - a'.sub.prepaid else 0))
    && (a'.sub.prepaid == a.sub.prepaid || (a' == a.(sub := a.sub.(status := Cancelled, prepaid := 0, cancelAt := None)) && CancellationDue(a.sub, v.now)))
  }

  lemma CarryUnpaid(v: Vault, id: nat, key: Option<nat>, d: Decision)
    requires Inv(v) && id in v.accounts && !d.Settle? && LeavesAccount(v.accounts[id], d)
    requires d == DecideInterval(v.cfg, StoredAdmin(v.cfg), v.accounts[id], id, v.now, v.ledgerSeq, key)
    requires d.Refund? ==> CancellationDue(v.accounts[id].sub, v.now)
    requires d.Finish? ==> Explained(v.cfg, StoredAdmin(v.cfg), v.accounts[id], id, v.now, v.ledgerSeq, key, d.result)
    ensures var (v', r) := Carry(v, id, StoredAdmin(v.cfg), key, d);
            && v'.ledger == v.ledger && id in v'.accounts && Unpaid(v, v', id)
            && (r != Err(HostTrap) ==> Explained(v.cfg, StoredAdmin(v.cfg), v.accounts[id], id, v.now, v.ledgerSeq, key, r))
  {
    hide Inv, DecideInterval, Payable, KeyIsLive, HasExpired, CapStops, CurrentPeriod;
    var a := v.accounts[id];
    FinishIsHarmless(v.cfg, StoredAdmin(v.cfg), a, id, v.now, v.ledgerSeq, key);
    KnownShape(v, id);
  }

  /** The account after an underfunded charge. With a grace period it starts once and runs; without
      one the subscription lacks funds, and failures are counted up to the pause. */
  predicate FellShort(grace: nat, threshold: nat, a: Account, a': Account, now: nat) {
    if a.sub.status == GracePeriod && a.sub.graceStart.None? then a' == a.(sub := a.sub.(graceStart := Some(now)))
    else if grace > 0 then
      || (a.sub.status == Active && a' == a.(sub := a.sub.(status := GracePeriod, graceStart := Some(now))))
      || (a.sub.status == GracePeriod && now < a.sub.graceStart.value + grace && a' == a)
    else
      var failures := Min(a.failures + 1, U32_MAX);
      && a.sub.status in {Active, GracePeriod, InsufficientFunds}
      && a' == a.(sub := a.sub.(status := (if 0 < threshold <= failures then Paused else InsufficientFunds), graceStart := None),
                  failures := if threshold == 0 then a.failures else if threshold <= failures then 0 else failures)
  }

  lemma FallsShort(cfg: Config, admin: Admin, a: Account, id: nat, now: nat, ledgerSeq: nat, key: Option<nat>)
    requires admin.gracePeriod == cfg.gracePeriod && now <= U64_MAX
    requires var d := DecideInterval(cfg, admin, a, id, now, ledgerSeq, key); d.Finish? && d.result == Ok(Underfunded)
    ensures cfg.gracePeriod.Some? && FellShort(cfg.gracePeriod.value, admin.autoPause, a, DecideInterval(cfg, admin, a, id, now, ledgerSeq, key).account, now)
  {
    hide DecideInterval;
    UnderfundedIsLive(cfg, admin, a, id, now, ledgerSeq, key);
  }

  /** An underfunded charge changes exactly that and nothing else in the contract. */
  lemma ChargeFallsShort(v: Vault, id: nat, key: Option<nat>)
    requires Inv(v) && ChargeOne(v, id, key, None, None).result == Ok(Underfunded)
    ensures id in v.accounts && v.cfg.gracePeriod.Some?
    ensures var v' := ChargeOne(v, id, key, None, None).vault;
            && id in v'.accounts && v' == v.(accounts := v.accounts[id := v'.accounts[id]])
            && FellShort(v.cfg.gracePeriod.value, v.cfg.autoPause, v.accounts[id], v'.accounts[id], v.now)
  {
    hide Inv, PartyObstacle, DecideInterval, SettleInterval, FellShort, MerchantStatus;
    InvFacts(v);
    var a := v.accounts[id];
    var d := DecideInterval(v.cfg, StoredAdmin(v.cfg), a, id, v.now, v.ledgerSeq, key);
    if d.Settle? && SettleInterval(v, id, StoredAdmin(v.cfg), d.plan, key).1.Ok? { SettlementSays(v, id, StoredAdmin(v.cfg), d.plan, key); }
    if d.Finish? && d.result == Ok(Underfunded) { FallsShort(v.cfg, StoredAdmin(v.cfg), a, id, v.now, v.ledgerSeq, key); }
  }

  // ----- Usage charges -----

  /** The meter lets the call through, if there is one. */
  ghost predicate MeterAccepts(a: Account, now: nat, amount: int)
  {
    a.limits.Some? ==> UsageMeter.Admit(a.meter, a.limits.value, now, CurrentPeriod(a.sub, now), amount).1 == UsageMeter.Accepted
  }

  /** Everything that must hold for usage to be paid for. */
  ghost predicate UsageDue(cfg: Config, a: Account, now: nat, ledgerSeq: nat, amount: int, reference: string) {
    && !HasExpired(a.sub, now, ledgerSeq)
    && a.sub.status == Active && a.sub.usageEnabled
    && (a.sub.autoRenew || now < a.sub.lastPayment + a.sub.interval <= U64_MAX)
    && 0 < amount <= a.sub.prepaid && (a.sub.merchant !in cfg.capOverride ==> amount <= a.sub.amount)
    && reference !in a.references
    && MeterAccepts(a, now, amount)
    && a.sub.lifetimeCharged + amount <= I128_MAX
    && (a.sub.lifetimeCap.Some? ==> a.sub.lifetimeCharged < a.sub.lifetimeCap.value && a.sub.lifetimeCharged + amount <= a.sub.lifetimeCap.value)
  }

  /** The account with the meter a call leaves. */
  predicate Metered(a: Account, m: Account, now: nat, amount: int) {
    m == a.(meter := if a.limits.Some? then UsageMeter.Admit(a.meter, a.limits.value, now, CurrentPeriod(a.sub, now), amount).0 else a.meter)
  }

  lemma DueIsActive(cfg: Config, a: Account, now: nat, ledgerSeq: nat, amount: int, reference: string)
    requires UsageDue(cfg, a, now, ledgerSeq, amount, reference)
    ensures a.sub.status == Active && amount > 0
  {}

  lemma UsageSettlesIff(cfg: Config, a: Account, now: nat, ledgerSeq: nat, amount: int, reference: string)
    requires AccountInv(a, now) && now <= U64_MAX
    ensures var d := DecideUsage(cfg, a, now, ledgerSeq, amount, reference);
            && (d.SettleUsage? <==> UsageDue(cfg, a, now, ledgerSeq, amount, reference))
            && (d.SettleUsage? ==> Metered(a, d.metered, now, amount) && d.plan == Plan(a.sub, amount, (now - a.sub.startTime) / a.sub.interval, 0))
  {
    hide UsageMeter.Admit, Billing, PeriodsOk, KeysOk, CanTransition;
  }

  /** What the outcome of unpaid usage says is so, and what it leaves behind. */
  ghost predicate UsageExplained(cfg: Config, a: Account, now: nat, ledgerSeq: nat, amount: int, reference: string, a': Account, r: Result<UsageOutcome>) {
    var s, next := a.sub, a.sub.lastPayment + a.sub.interval;
    match r
    case Ok(UsageReplay) => reference in a.references && a' == a
    case Ok(UsageCharged) =>
      s.lifetimeCap.Some? && s.lifetimeCharged + amount > s.lifetimeCap.value && MeterAccepts(a, now, amount)
      && Metered(a, a.(meter := a'.meter), now, amount) && a' == a.(meter := a'.meter, sub := s.(status := Cancelled))
    case Ok(UsageLimited(verdict)) =>
      || (verdict == UsageMeter.UsageCapExceeded && s.merchant !in cfg.capOverride && amount > s.amount && a' == a)
      || (!MeterAccepts(a, now, amount) && Metered(a, a', now, amount)
          && verdict == UsageMeter.Admit(a.meter, a.limits.value, now, CurrentPeriod(s, now), amount).1)
    case Err(SubscriptionExpired) => HasExpired(s, now, ledgerSeq)
    case Err(LifetimeCapReached) => s.lifetimeCap.Some? && s.lifetimeCharged >= s.lifetimeCap.value
    case Err(InvalidStatusTransition) => HasExpired(s, now, ledgerSeq) || (s.lifetimeCap.Some? && s.lifetimeCharged >= s.lifetimeCap.value)
    case Err(NotActive) => s.status != Active || (!s.autoRenew && next <= now)
    case Err(UsageNotEnabled) => !s.usageEnabled
    case Err(InvalidAmount) => amount <= 0
    case Err(InsufficientPrepaidBalance) => s.prepaid < amount
    case Err(Overflow) => (!s.autoRenew && next > U64_MAX) || s.lifetimeCharged + amount > I128_MAX
    case _ => false
  }

  lemma UnpaidUsageIsExplained(cfg: Config, a: Account, now: nat, ledgerSeq: nat, amount: int, reference: string)
    requires AccountInv(a, now) && now <= U64_MAX
    ensures var d := DecideUsage(cfg, a, now, ledgerSeq, amount, reference);
            d.FinishUsage? ==> UsageExplained(cfg, a, now, ledgerSeq, amount, reference, d.account, d.result)
  {
    hide UsageMeter.Admit, Billing, PeriodsOk, KeysOk, CanTransition;
  }

  /** The subscription after paid usage: an emptied balance is a lack of funds. */
  predicate UsedSubscription(s: Subscription, s': Subscription, amount: int) {
    && s'.prepaid == s.prepaid - amount
    && s'.lifetimeCharged == s.lifetimeCharged + amount
    && s'.status == (if s.lifetimeCap.Some? && s.lifetimeCharged + amount >= s.lifetimeCap.value then Cancelled
                     else if s.prepaid == amount then InsufficientFunds else Active)
    && s' == s.(prepaid := s'.prepaid, lifetimeCharged := s'.lifetimeCharged, status := s'.status)
  }

  /** The period's snapshot stays open and counts the units as charged. */
  predicate UsedIn(snaps: Snapshots.Store, snaps': Snapshots.Store, period: nat, amount: int) {
    && period in snaps'.snaps
    && var f := snaps'.snaps[period];
       && f.period == period && f.charged == ChargedIn(snaps, period) + amount && f.units == UnitsIn(snaps, period) + amount
       && !f.flags.closed && f.flags.usageCharged
  }

  ghost predicate Used(a: Account, a': Account, amount: int, now: nat, reference: string) {
    && a.sub.startTime <= now
    && UsedSubscription(a.sub, a'.sub, amount)
    && Listed(a.log, a'.log, now, now, amount, a.sub.merchant, a.sub.token, StatementLog.Usage)
    && UsedIn(a.snaps, a'.snaps, (now - a.sub.startTime) / a.sub.interval, amount)
    && a'.references == a.references + {reference}
    && Metered(a, a.(meter := a'.meter), now, amount)
    && a' == a.(sub := a'.sub, log := a'.log, snaps := a'.snaps, references := a'.references, meter := a'.meter)
  }

  lemma RecordUses(a: Account, metered: Account, amount: int, now: nat, reference: string)
    requires AccountInv(a, now) && Metered(a, metered, now, amount) && a.sub.status == Active
    requires var p := Plan(a.sub, amount, (now - a.sub.startTime) / a.sub.interval, 0); RecordUsage(metered, p, now, reference).Ok?
    ensures var p := Plan(a.sub, amount, (now - a.sub.startTime) / a.sub.interval, 0);
            Used(a, RecordUsage(metered, p, now, reference).value, amount, now, reference)
  {
    hide Snapshots.Write, Billing, PeriodsOk, KeysOk, UsageMeter.Admit;
    var p := Plan(a.sub, amount, (now - a.sub.startTime) / a.sub.interval, 0);
    WriteStores(a, UsageSnapshot(p, now), now);
  }

  /** A usage charge that reports success was either due and paid at the merchant's own rate, or
      the contract's where it has none, or ran into the lifetime cap and cancelled the subscription
      without payment; whatever else it reports is so. */
  lemma UsageTaken(v: Vault, id: nat, amount: int, reference: string)
    requires Inv(v) && ChargeUsage(v, id, amount, reference).Ok?
    ensures id in v.accounts && !v.cfg.emergencyStop && PartiesReady(v.cfg, v.accounts[id], v.now)
    ensures var (v', outcome) := ChargeUsage(v, id, amount, reference).value;
            var a := v.accounts[id];
            var rate := if a.sub.merchant in v.cfg.feeOverride then v.cfg.feeOverride[a.sub.merchant] else v.cfg.feeBps;
            && id in v'.accounts && v' == v.(ledger := v'.ledger, accounts := v.accounts[id := v'.accounts[id]])
            && if UsageDue(v.cfg, a, v.now, v.ledgerSeq, amount, reference) then
                 && outcome == UsageCharged
                 && Distributed(v.ledger, v'.ledger, a.sub.token, StatementLog.Usage, a.split, a.sub.merchant, amount, rate, v.cfg.treasury)
                 && Used(a, v'.accounts[id], amount, v.now, reference)
               else
                 && v'.ledger == v.ledger
                 && UsageExplained(v.cfg, a, v.now, v.ledgerSeq, amount, reference, v'.accounts[id], Ok(outcome))
  {
    hide Inv, PartyObstacle, DecideUsage, Credits, Ledger.CreditAll, RecordUsage, Distributed, Used, UsageDue, UsageExplained, AccountInv, MerchantStatus, PartiesReady;
    var a := v.accounts[id];
    PartiesReadyIff(v.cfg, a, v.now);
    Known(v, id);
    InvFacts(v);
    AccountFacts(a, v.now);
    UsageSettlesIff(v.cfg, a, v.now, v.ledgerSeq, amount, reference);
    var d := DecideUsage(v.cfg, a, v.now, v.ledgerSeq, amount, reference);
    if d.SettleUsage? {
      DueIsActive(v.cfg, a, v.now, v.ledgerSeq, amount, reference);
      var rate := if a.sub.merchant in v.cfg.feeOverride then v.cfg.feeOverride[a.sub.merchant] else v.cfg.feeBps;
      SameCredits(d.metered, a, amount, rate, v.cfg.treasury);
      CreditsDistribute(v.ledger, a, a.sub.merchant, amount, rate, v.cfg.treasury, a.sub.token, StatementLog.Usage);
      RecordUses(a, d.metered, amount, v.now, reference);
    } else {
      UnpaidUsageIsExplained(v.cfg, a, v.now, v.ledgerSeq, amount, reference);
    }
  }

  /** The refusals of a usage charge: stopped, unknown, a party not ready, or a reason that is so; one
      that was due can only be refused where it is recorded. */
  lemma UsageGates(v: Vault, id: nat, amount: int, reference: string)
    requires Inv(v) && ChargeUsage(v, id, amount, reference).Err?
    ensures var e := ChargeUsage(v, id, amount, reference).error;
            if v.cfg.emergencyStop then e == EmergencyStopActive
            else if id !in v.accounts then e == NotFound
            else if !PartiesReady(v.cfg, v.accounts[id], v.now) then RefusedFor(v.cfg, v.accounts[id], v.now, e)
            else
              || UsageDue(v.cfg, v.accounts[id], v.now, v.ledgerSeq, amount, reference)
              || (exists a' :: UsageExplained(v.cfg, v.accounts[id], v.now, v.ledgerSeq, amount, reference, a', Err(e)))
  {
    hide Inv, PartyObstacle, DecideUsage, SettleMetered, UsageDue, UsageExplained, AccountInv, MerchantStatus, PartiesReady, RefusedFor;
    if !v.cfg.emergencyStop && id in v.accounts {
      var a := v.accounts[id];
      PartiesReadyIff(v.cfg, a, v.now);
      Known(v, id);
      InvFacts(v);
      UsageSettlesIff(v.cfg, a, v.now, v.ledgerSeq, amount, reference);
      UnpaidUsageIsExplained(v.cfg, a, v.now, v.ledgerSeq, amount, reference);
    }
  }
}
