/** The contract as an object whose entrypoints change its storage step by step, each proved to
    do to the state exactly what the corresponding function of the Vault module says. */
module VaultContract {
  import opened Base
  import opened StateMachine
  import opened Accounts
  import opened AccountLaws
  import opened V = Vault
  import VaultFrames
  import ChargeMath
  import IdemRing
  import Ledger
  import Snapshots
  import StatementLog
  import UsageMeter

  /** A method did what a call specifies: its new state, or no change and its error. */
  ghost predicate Did(spec: Result<Vault>, before: Vault, after: Vault, r: Result<()>) {
    match spec
    case Ok(v') => after == v' && r == Ok(())
    case Err(e) => after == before && r == Err(e)
  }

  /** The same for a call that also returns a value. */
  ghost predicate DidReturn<T>(spec: Result<(Vault, T)>, before: Vault, after: Vault, r: Result<T>) {
    match spec
    case Ok((v', value)) => after == v' && r == Ok(value)
    case Err(e) => after == before && r == Err(e)
  }

  // ----- Lists credited step by step -----

  /** A refusal ends the list, whatever would have followed. */
  lemma {:induction false} RefusalStops(l: Ledger.Ledger, credits: seq<(nat, int)>, rest: seq<(nat, int)>, token: nat, kind: StatementLog.Kind)
    requires Ledger.CreditAll(l, credits, token, kind).1.Some?
    ensures Ledger.CreditAll(l, credits + rest, token, kind) == Ledger.CreditAll(l, credits, token, kind)
  {
    if rest == [] {
      assert credits + rest == credits;
    } else {
      RefusalStops(l, credits, rest[..|rest| - 1], token, kind);
      assert (credits + rest)[..|credits + rest| - 1] == credits + rest[..|rest| - 1];
    }
  }

  lemma CreditOneMore(l: Ledger.Ledger, credits: seq<(nat, int)>, who: nat, amount: int, token: nat, kind: StatementLog.Kind)
    requires Ledger.CreditAll(l, credits, token, kind).1.None?
    ensures Ledger.CreditAll(l, credits + [(who, amount)], token, kind) == Ledger.Credit(Ledger.CreditAll(l, credits, token, kind).0, who, token, amount, kind)
  {
    assert (credits + [(who, amount)])[..|credits|] == credits;
  }

  lemma NoneLater(l: Ledger.Ledger, payees: seq<(nat, nat)>, net: int, token: nat, kind: StatementLog.Kind)
    requires payees != []
    ensures LaterCredits(payees[..1], net) == []
    ensures Ledger.CreditAll(l, LaterCredits(payees[..1], net), token, kind) == (l, None)
    ensures Ledger.SumCredits(LaterCredits(payees[..1], net)) == 0
  {}

  /** The credits of the first n payees begin the credits of all of them. */
  lemma {:induction false} LaterCreditsPrefix(payees: seq<(nat, nat)>, net: int, n: nat)
    requires 0 < n <= |payees|
    ensures exists rest :: LaterCredits(payees, net) == LaterCredits(payees[..n], net) + rest
  {
    if n == |payees| {
      assert payees[..n] == payees;
      assert LaterCredits(payees, net) == LaterCredits(payees[..n], net) + [];
    } else {
      var init := payees[..|payees| - 1];
      LaterCreditsPrefix(init, net, n);
      assert init[..n] == payees[..n];
      var rest :| LaterCredits(init, net) == LaterCredits(payees[..n], net) + rest;
      var last := [(payees[|payees| - 1].0, ChargeMath.Share(net, payees[|payees| - 1].1))];
      assert LaterCredits(payees, net) == LaterCredits(payees[..n], net) + (rest + last);
    }
  }

  /** Storing the meter before the settlement makes no difference to it. */
  lemma MeterFirst(v: Vault, id: nat, metered: Account, p: Plan, reference: string)
    ensures SettleMetered(SetAccount(v, id, metered), id, metered, p, reference) == SettleMetered(v, id, metered, p, reference)
  {
    hide Credits, Ledger.CreditAll, RecordUsage, ProductsFit;
    var a := RecordUsage(metered, p, v.now, reference);
    if a.Ok? { assert v.accounts[id := metered][id := a.value] == v.accounts[id := a.value]; }
  }

  lemma UnderfundedFinishes(admin: Admin, a: Account, s: Subscription, now: nat)
    ensures DecideUnderfunded(admin, a, s, now).Finish?
  {}

  class Contract {
    var now: nat
    var ledgerSeq: nat
    var cfg: Config
    var accounts: map<nat, Account>
    var nextSub: nat
    var balance: map<(nat, nat), int>
    var earnings: map<(nat, nat), Ledger.Earnings>
    var tokens: map<nat, seq<nat>>
    var disputes: Disputes
    var escrows: map<nat, CancelEscrow>
    var merchants: Merchants
    var redemptions: map<nat, nat>
    var held: map<nat, int>

    function Books(): Ledger.Ledger
      reads this
    {
      Ledger.Ledger(balance, earnings, tokens)
    }

    function State(): Vault
      reads this
    {
      Vault(now, ledgerSeq, cfg, accounts, nextSub, Books(), disputes, escrows, merchants, redemptions, held)
    }

    constructor (v: Vault)
      ensures State() == v
    {
      now, ledgerSeq, cfg, accounts, nextSub := v.now, v.ledgerSeq, v.cfg, v.accounts, v.nextSub;
      balance, earnings, tokens := v.ledger.balance, v.ledger.earnings, v.ledger.tokens;
      disputes, escrows, merchants, redemptions, held := v.disputes, v.escrows, v.merchants, v.redemptions, v.held;
    }

    /** What the host does to a call that fails. */
    method Revert(v: Vault)
      modifies this
      ensures State() == v
    {
      RevertClock(v);
      RevertBooks(v);
      RevertRecords(v);
    }

    method RevertClock(v: Vault)
      modifies `now, `ledgerSeq, `cfg, `accounts, `nextSub
      ensures now == v.now && ledgerSeq == v.ledgerSeq && cfg == v.cfg && accounts == v.accounts && nextSub == v.nextSub
    {
      now, ledgerSeq, nextSub := v.now, v.ledgerSeq, v.nextSub;
      cfg, accounts := v.cfg, v.accounts;
    }

    method RevertBooks(v: Vault)
      modifies `balance, `earnings, `tokens
      ensures Books() == v.ledger
    {
      balance, earnings, tokens := v.ledger.balance, v.ledger.earnings, v.ledger.tokens;
    }

    method RevertRecords(v: Vault)
      modifies `disputes, `escrows, `merchants, `redemptions, `held
      ensures disputes == v.disputes && escrows == v.escrows && merchants == v.merchants && redemptions == v.redemptions && held == v.held
    {
      disputes, escrows, merchants := v.disputes, v.escrows, v.merchants;
      redemptions, held := v.redemptions, v.held;
    }

    // ----- Credits -----

    method CreditMerchant(who: nat, token: nat, amount: int, kind: StatementLog.Kind) returns (e: Option<Error>)
      modifies `balance, `earnings, `tokens
      ensures (Books(), e) == Ledger.Credit(old(Books()), who, token, amount, kind)
    {
      if amount < 0 { return Some(InvalidAmount); }
      var sum := SafeAdd(Ledger.BalanceOf(Books(), who, token), amount);
      if sum.Err? { return Some(Overflow); }
      balance := balance[(who, token) := sum.value];
      var books := Ledger.EarningsOf(Books(), who, token);
      if !InI128(Ledger.Accrued(books, kind) + amount) { return Some(Overflow); }
      earnings := earnings[(who, token) := Ledger.Accrue(books, kind, amount)];
      if token !in Ledger.TokensOf(Books(), who) {
        tokens := tokens[who := Ledger.TokensOf(Books(), who) + [token]];
      }
      return None;
    }

    /** Payees from the second on get their shares; the total handed out is returned. */
    method CreditLaterPayees(payees: seq<(nat, nat)>, token: nat, net: int, kind: StatementLog.Kind) returns (distributed: int, e: Option<Error>)
      requires payees != []
      modifies `balance, `earnings, `tokens
      ensures (Books(), e) == Ledger.CreditAll(old(Books()), LaterCredits(payees, net), token, kind)
      ensures e.None? ==> distributed == Ledger.SumCredits(LaterCredits(payees, net))
    {
      hide ChargeMath.Share, Ledger.Credit, Ledger.CreditAll, Ledger.SumCredits;
      distributed, e := 0, None;
      var i := 1;
      ghost var before := Books();
      NoneLater(before, payees, net, token, kind);
      while i < |payees|
        invariant 1 <= i <= |payees|
        invariant distributed == Ledger.SumCredits(LaterCredits(payees[..i], net))
        invariant e.None? && (Books(), e) == Ledger.CreditAll(before, LaterCredits(payees[..i], net), token, kind)
      {
        var share := ChargeMath.Share(net, payees[i].1);
        assert payees[..i + 1][..i] == payees[..i];
        CreditOneMore(before, LaterCredits(payees[..i], net), payees[i].0, share, token, kind);
        SumCreditsAppend(LaterCredits(payees[..i], net), payees[i].0, share);
        distributed := distributed + share;
        e := CreditMerchant(payees[i].0, token, share, kind);
        i := i + 1;
        if e.Some? {
          LaterCreditsPrefix(payees, net, i);
          ghost var rest :| LaterCredits(payees, net) == LaterCredits(payees[..i], net) + rest;
          RefusalStops(before, LaterCredits(payees[..i], net), rest, token, kind);
          return;
        }
      }
      assert payees[..i] == payees;
    }

    /** The first payee gets what the others leave. */
    method CreditChargePayees(a: Account, merchant: nat, token: nat, net: int, kind: StatementLog.Kind) returns (e: Option<Error>)
      modifies `balance, `earnings, `tokens
      ensures (Books(), e) == Ledger.CreditAll(old(Books()), PayeeCredits(a, merchant, net), token, kind)
    {
      ghost var before := Books();
      if a.split.None? {
        CreditOneMore(before, [], merchant, net, token, kind);
        assert [] + [(merchant, net)] == [(merchant, net)];
        e := CreditMerchant(merchant, token, net, kind);
      } else if a.split.value == [] {
        e := None;
      } else {
        hide Ledger.Credit, Ledger.CreditAll, Ledger.SumCredits, LaterCredits;
        var payees := a.split.value;
        ghost var later := LaterCredits(payees, net);
        var distributed;
        distributed, e := CreditLaterPayees(payees, token, net, kind);
        if e.Some? {
          RefusalStops(before, later, FirstCredit(payees, net), token, kind);
        } else {
          CreditOneMore(before, later, payees[0].0, net - distributed, token, kind);
          e := CreditMerchant(payees[0].0, token, net - distributed, kind);
        }
      }
    }

    /** The payees' part and, where a fee is due, the treasury's. */
    method CreditCharge(a: Account, merchant: nat, token: nat, amount: int, feeBps: nat, treasury: Option<nat>, kind: StatementLog.Kind) returns (e: Option<Error>)
      modifies `balance, `earnings, `tokens
      ensures (Books(), e) == Ledger.CreditAll(old(Books()), Credits(a, merchant, amount, feeBps, treasury), token, kind)
    {
      var net, fee := amount, 0;
      if feeBps > 0 && treasury.Some? {
        fee := Max(TruncDiv(amount * feeBps, ChargeMath.BPS), 1);
        net := amount - fee;
      }
      assert (net, fee) == ChargeMath.FeeSplit(amount, feeBps, treasury.Some?);
      ghost var before := Books();
      e := CreditChargePayees(a, merchant, token, net, kind);
      if fee > 0 {
        if e.Some? {
          RefusalStops(before, PayeeCredits(a, merchant, net), [(treasury.value, fee)], token, kind);
          return;
        }
        CreditOneMore(before, PayeeCredits(a, merchant, net), treasury.value, fee, token, kind);
        e := CreditMerchant(treasury.value, token, fee, kind);
      } else {
        assert PayeeCredits(a, merchant, net) + [] == PayeeCredits(a, merchant, net);
      }
    }

    // ----- Interval charges -----

    method WriteSubscription(id: nat, s: Subscription)
      requires id in accounts
      modifies `accounts
      ensures State() == SetAccount(old(State()), id, old(accounts)[id].(sub := s))
    {
      accounts := accounts[id := accounts[id].(sub := s)];
    }

    /** The first obstacle among the split payees. */
    method CheckPayeesReachable(payees: seq<(nat, nat)>) returns (e: Option<Error>)
      ensures e == PayeeObstacle(cfg, payees, now)
    {
      var i := 0;
      while i < |payees|
        invariant 0 <= i <= |payees|
        invariant PayeeObstacle(cfg, payees, now) == PayeeObstacle(cfg, payees[i..], now)
      {
        var payee := payees[i].0;
        if payee in cfg.blocked { return Some(SubscriberBlocklisted); }
        if IsPaused(cfg, payee) { return Some(MerchantPaused); }
        if OnVacation(cfg, payee, now) { return Some(VacationActive); }
        assert payees[i..][1..] == payees[i + 1..];
        i := i + 1;
      }
      return None;
    }

    /** Paused and on vacation, read once for each merchant of a batch. */
    method MerchantStatusCached(merchant: nat, cache: Option<Cache>) returns (status: (bool, bool), cache': Option<Cache>)
      ensures (status, cache') == LookupStatus(State(), merchant, cache)
    {
      cache' := cache;
      if cache.Some? && merchant in cache.value { return cache.value[merchant], cache'; }
      status := (IsPaused(cfg, merchant), OnVacation(cfg, merchant, now));
      if cache.Some? { cache' := Some(cache.value[merchant := status]); }
    }

    /** Nothing is rolled back here: an error keeps whatever was written before it. */
    method ChargeOne(id: nat, key: Option<nat>, admin: Option<Admin>, cache: Option<Cache>) returns (r: Result<Outcome>, cache': Option<Cache>)
      modifies `accounts, `balance, `earnings, `tokens, `held
      ensures ChargeResult(State(), cache', r) == V.ChargeOne(old(State()), id, key, admin, cache)
    {
      hide DecideInterval, Carry, PayeeObstacle, LookupStatus;
      cache' := cache;
      if cfg.emergencyStop { return Err(EmergencyStopActive), cache'; }
      if id !in accounts { return Err(NotFound), cache'; }
      var a := accounts[id];
      var status;
      status, cache' := MerchantStatusCached(a.sub.merchant, cache);
      if status.0 { return Err(MerchantPaused), cache'; }
      if status.1 { return Err(VacationActive), cache'; }
      if a.sub.subscriber in cfg.blocked { return Err(SubscriberBlocklisted), cache'; }
      if a.sub.merchant in cfg.blocked { return Err(SubscriberBlocklisted), cache'; }
      if a.split.Some? {
        var e := CheckPayeesReachable(a.split.value);
        if e.Some? { return Err(e.value), cache'; }
      }
      r := ChargeReachable(id, key, if admin.Some? then admin.value else StoredAdmin(cfg));
    }

    /** Expiry, and the amount of the charge. */
    method ChargeReachable(id: nat, key: Option<nat>, settings: Admin) returns (r: Result<Outcome>)
      requires id in accounts
      modifies `accounts, `balance, `earnings, `tokens, `held
      ensures (State(), r) == Carry(old(State()), id, settings, key, DecideInterval(cfg, settings, old(accounts)[id], id, now, ledgerSeq, key))
    {
      hide ChargeAmount, DecideLive, SettleInterval;
      var a := accounts[id];
      var s := Effective(a.sub, cfg.gracePeriod, now);
      assert accounts[id := a] == accounts;
      if IsExpired(s, now, ledgerSeq) {
        if s.status != Expired {
          var t := TransitionTo(s.status, Expired);
          if t.Err? { return Err(t.error); }
          WriteSubscription(id, s.(status := Expired));
        }
        return Err(SubscriptionExpired);
      }
      var amount := ChargeAmount(cfg, a, now);
      if amount.Err? { return Err(amount.error); }
      r := ChargeLive(id, key, settings, s, amount.value);
    }

    /** Lifetime cap, scheduled cancellation, status and renewal. */
    method ChargeLive(id: nat, key: Option<nat>, settings: Admin, s: Subscription, amount: int) returns (r: Result<Outcome>)
      requires id in accounts
      modifies `accounts, `balance, `earnings, `tokens, `held
      ensures (State(), r) == Carry(old(State()), id, settings, key, DecideLive(settings, old(accounts)[id], s, id, now, key, cfg.idemTtl, amount))
    {
      hide DecideScheduledCancel, StatusObstacle, DecideRenewal, SettleInterval, CanTransition;
      var a := accounts[id];
      assert accounts[id := a] == accounts;
      if s.lifetimeCap.Some? && s.lifetimeCharged >= s.lifetimeCap.value {
        if s.status != Cancelled {
          var t := TransitionTo(s.status, Cancelled);
          if t.Err? { return Err(t.error); }
          WriteSubscription(id, s.(status := Cancelled));
        }
        return Ok(CapReached);
      }
      if s.cancelAt.Some? && now >= s.cancelAt.value {
        r := CancelOnSchedule(id, key, settings, s);
        return;
      }
      var e := CheckStatus(s);
      if e.Some? { return Err(e.value); }
      r := ChargeRenewing(id, key, settings, s, amount);
    }

    /** The whole balance goes back to the subscriber. */
    method CancelOnSchedule(id: nat, key: Option<nat>, settings: Admin, s: Subscription) returns (r: Result<Outcome>)
      requires id in accounts
      modifies `accounts, `held
      ensures (State(), r) == Carry(old(State()), id, settings, key, DecideScheduledCancel(old(accounts)[id], s))
    {
      hide SettleInterval, CanTransition;
      assert accounts[id := accounts[id]] == accounts;
      if s.status != Cancelled {
        var t := TransitionTo(s.status, Cancelled);
        if t.Err? { return Err(t.error); }
        if s.prepaid > 0 && Held(State(), s.token) < s.prepaid { return Err(HostTrap); }
        WriteSubscription(id, s.(status := Cancelled, prepaid := 0, cancelAt := None));
        if s.prepaid > 0 { held := held[s.token := Held(State(), s.token) - s.prepaid]; }
      }
      return Ok(ScheduledCancellation);
    }

    method CheckStatus(s: Subscription) returns (e: Option<Error>)
      ensures e == StatusObstacle(s, now)
    {
      if s.status != Active && s.status != GracePeriod {
        if s.status != InsufficientFunds { return Some(NotActive); }
        var next := NextChargeTime(s.lastPayment, s.interval);
        if next.Err? { return Some(next.error); }
        if now < next.value { return Some(NotActive); }
      }
      return None;
    }

    method ChargeRenewing(id: nat, key: Option<nat>, settings: Admin, s: Subscription, amount: int) returns (r: Result<Outcome>)
      requires id in accounts
      modifies `accounts, `balance, `earnings, `tokens, `held
      ensures (State(), r) == Carry(old(State()), id, settings, key, DecideRenewal(settings, old(accounts)[id], s, id, now, key, cfg.idemTtl, amount))
    {
      hide DecideReplay, SettleInterval;
      assert accounts[id := accounts[id]] == accounts;
      if !s.autoRenew {
        var next := NextChargeTime(s.lastPayment, s.interval);
        if next.Err? { return Err(next.error); }
        if now >= next.value { return Ok(Skipped); }
      }
      r := ChargeDue(id, key, settings, s, amount);
    }

    /** Key, period, interval, remaining cap and balance. */
    method ChargeDue(id: nat, key: Option<nat>, settings: Admin, s: Subscription, amount: int) returns (r: Result<Outcome>)
      requires id in accounts
      modifies `accounts, `balance, `earnings, `tokens, `held
      ensures (State(), r) == Carry(old(State()), id, settings, key, DecideReplay(settings, old(accounts)[id], s, id, now, key, cfg.idemTtl, amount))
    {
      hide DecideUnderfunded, SettleInterval, UsageMeter.PeriodAt, IdemRing.CheckKey, CanTransition;
      var a := accounts[id];
      assert accounts[id := a] == accounts;
      var period := UsageMeter.PeriodAt(now, s.startTime, s.interval);
      if key.Some? && IdemRing.CheckKey(a.idem, Fingerprint(id, key.value), now, cfg.idemTtl) { return Ok(Charged); }
      if a.chargedPeriod.Some? && period <= a.chargedPeriod.value { return Err(Error.Replay); }
      var next := NextChargeTime(s.lastPayment, s.interval);
      if next.Err? { return Err(next.error); }
      if now < next.value { return Err(IntervalNotElapsed); }
      if s.lifetimeCap.Some? && amount > s.lifetimeCap.value - s.lifetimeCharged {
        var t := TransitionTo(s.status, Cancelled);
        if t.Err? { return Err(t.error); }
        WriteSubscription(id, s.(status := Cancelled));
        return Ok(CapReached);
      }
      if 0 <= amount <= s.prepaid {
        r := Settle(id, key, settings, Plan(s, amount, period, next.value));
      } else {
        UnderfundedFinishes(settings, a, s, now);
        r := Fall(id, settings, s);
      }
    }

    /** Credits come first. */
    method Settle(id: nat, key: Option<nat>, settings: Admin, p: Plan) returns (r: Result<Outcome>)
      requires id in accounts
      modifies `accounts, `balance, `earnings, `tokens
      ensures (State(), r) == SettleInterval(old(State()), id, settings, p, key)
    {
      hide Credits, Ledger.CreditAll, RecordInterval;
      var e := CreditCharge(accounts[id], p.sub.merchant, p.sub.token, p.amount, settings.feeBps, settings.treasury, StatementLog.Interval);
      if e.Some? { return Err(e.value); }
      r := Record(id, key, p);
    }

    /** Subscription, statement, snapshot, charged period and key, in this order. */
    method Record(id: nat, key: Option<nat>, p: Plan) returns (r: Result<Outcome>)
      requires id in accounts
      modifies `accounts
      ensures var (a', result) := RecordInterval(cfg, old(accounts)[id], p, id, now, key); r == result && accounts == old(accounts)[id := a']
    {
      hide StatementLog.Append, Snapshots.Write, IdemRing.PushKey, Debited;
      var a := accounts[id];
      assert accounts[id := a] == accounts;
      var lifetime := SafeAdd(p.sub.lifetimeCharged, p.amount);
      if lifetime.Err? { return Err(lifetime.error); }
      var s := Debit(p, lifetime.value);
      a := a.(sub := s, failures := 0);
      accounts := accounts[id := a];
      var start := SaturatingSub(p.nextAllowed, p.sub.interval);
      var log := StatementLog.Append(a.log, now, start, p.amount, p.sub.merchant, p.sub.token, StatementLog.Interval);
      if log.Err? { return Err(log.error); }
      a := a.(log := log.value);
      var snaps := Snapshots.Write(a.snaps, IntervalSnapshot(p, now));
      if snaps.Err? {
        accounts := accounts[id := a];
        assert accounts == old(accounts)[id := a];
        return Err(snaps.error);
      }
      a := a.(snaps := snaps.value, chargedPeriod := Some(p.period));
      r := Ok(Charged);
      if key.Some? {
        var idem := IdemRing.PushKey(a.idem, Fingerprint(id, key.value), now, cfg.idemTtl);
        if idem.Err? { r := Err(idem.error); } else { a := a.(idem := idem.value); }
      }
      accounts := accounts[id := a];
      assert accounts == old(accounts)[id := a];
    }

    /** The subscription after the debit: recovered, and cancelled if the cap is reached. */
    method Debit(p: Plan, lifetime: int) returns (s: Subscription)
      requires lifetime == p.sub.lifetimeCharged + p.amount
      ensures s == Debited(p, now)
    {
      s := p.sub.(prepaid := p.sub.prepaid - p.amount, lastPayment := Max(now, p.sub.lastPayment), lifetimeCharged := lifetime);
      if s.status == GracePeriod || s.status == InsufficientFunds { s := s.(status := Active, graceStart := None); }
      if s.lifetimeCap.Some? && s.lifetimeCharged >= s.lifetimeCap.value { s := s.(status := Cancelled); }
    }

    /** Starts, keeps or ends the grace period. */
    method Demote(s: Subscription, grace: nat) returns (r: Result<Subscription>)
      ensures r == Demoted(s, grace, now)
    {
      if s.status == GracePeriod {
        if s.graceStart.None? { return Ok(s.(graceStart := Some(now))); }
        if grace == 0 || now >= SaturatingAdd64(s.graceStart.value, grace) { return Ok(s.(status := InsufficientFunds)); }
        return Ok(s);
      }
      var next := if grace > 0 then GracePeriod else InsufficientFunds;
      var t := TransitionTo(s.status, next);
      if t.Err? { return Err(t.error); }
      return Ok(s.(status := next, graceStart := if grace > 0 then Some(now) else None));
    }

    /** An underfunded charge: grace period, failure counter, automatic pause. */
    method Fall(id: nat, settings: Admin, s: Subscription) returns (r: Result<Outcome>)
      requires id in accounts
      modifies `accounts, `balance, `earnings, `tokens, `held
      ensures (State(), r) == Carry(old(State()), id, settings, None, DecideUnderfunded(settings, old(accounts)[id], s, now))
    {
      hide Demoted;
      var a := accounts[id];
      assert accounts[id := a] == accounts;
      if settings.gracePeriod.None? { return Err(NotInitialized); }
      var demoted := Demote(s, settings.gracePeriod.value);
      if demoted.Err? { return Err(demoted.error); }
      var fallen := demoted.value;
      WriteSubscription(id, fallen);
      if settings.autoPause > 0 && fallen.status == InsufficientFunds {
        var failures := SaturatingAdd32(a.failures, 1);
        accounts := accounts[id := accounts[id].(failures := failures)];
        if failures >= settings.autoPause {
          accounts := accounts[id := accounts[id].(sub := fallen.(status := Paused), failures := 0)];
        }
      }
      assert accounts == old(accounts)[id := accounts[id]];
      return Ok(Underfunded);
    }

    /** The single-charge entrypoint: an error is rolled back. */
    method ChargeSubscription(id: nat, key: Option<nat>) returns (r: Result<Outcome>)
      modifies this
      ensures DidReturn(V.ChargeSubscription(old(State()), id, key), old(State()), State(), r)
    {
      hide V.ChargeOne;
      var before := State();
      var cache;
      r, cache := ChargeOne(id, key, None, None);
      if r.Err? { Revert(before); }
    }

    /** The batch entrypoint: settings are read once, merchant status once per merchant, and a
        failed item does not stop or undo anything; only a panic does. */
    method BatchCharge(ids: seq<nat>, keys: Option<seq<nat>>) returns (r: Result<seq<ItemResult>>)
      modifies this
      ensures DidReturn(V.BatchCharge(old(State()), ids, keys), old(State()), State(), r)
    {
      hide V.ChargeOne;
      if cfg.emergencyStop { return Err(EmergencyStopActive); }
      if |ids| > BATCH_MAX_SIZE { return Err(InvalidInput); }
      if ids == [] { return Ok([]); }
      if keys.Some? && |keys.value| != |ids| { return Err(InvalidInput); }
      var duplicate := AnyDuplicate(ids);
      if duplicate { return Err(InvalidInput); }
      var before := State();
      var admin, cache, results, i := ReadAdmin(cfg), Some(map[]), [], 0;
      while i < |ids|
        invariant 0 <= i <= |ids|
        invariant BatchState(State(), cache, results, false) == BatchRun(before, ids, keys, admin, Some(map[]), i)
      {
        var c;
        c, cache := ChargeOne(ids[i], KeyAt(keys, i), admin, cache);
        i := i + 1;
        if c == Err(HostTrap) {
          TrapStays(before, ids, keys, admin, Some(map[]), i, |ids|);
          Revert(before);
          return Err(HostTrap);
        }
        results := results + [ToItem(ids[i - 1], c)];
      }
      return Ok(results);
    }

    method AnyDuplicate(ids: seq<nat>) returns (found: bool)
      ensures found == HasDuplicate(ids)
    {
      var i := 0;
      while i < |ids|
        invariant 0 <= i <= |ids|
        invariant !HasDuplicate(ids[..i])
      {
        if ids[i] in ids[..i] {
          ghost var j :| 0 <= j < i && ids[..i][j] == ids[i];
          assert ids[j] == ids[i];
          return true;
        }
        assert ids[..i + 1] == ids[..i] + [ids[i]];
        i := i + 1;
      }
      assert ids[..i] == ids;
      return false;
    }

    // ----- Usage charges -----

    method ChargeUsage(id: nat, amount: int, reference: string) returns (r: Result<UsageOutcome>)
      modifies this
      ensures DidReturn(V.ChargeUsage(old(State()), id, amount, reference), old(State()), State(), r)
    {
      hide DecideUsage, SettleMetered, PayeeObstacle;
      if cfg.emergencyStop { return Err(EmergencyStopActive); }
      if id !in accounts { return Err(NotFound); }
      var a := accounts[id];
      if IsPaused(cfg, a.sub.merchant) { return Err(MerchantPaused); }
      if OnVacation(cfg, a.sub.merchant, now) { return Err(VacationActive); }
      if a.sub.subscriber in cfg.blocked || a.sub.merchant in cfg.blocked { return Err(SubscriberBlocklisted); }
      if a.split.Some? {
        var e := CheckPayeesReachable(a.split.value);
        if e.Some? { return Err(e.value); }
      }
      var before := State();
      r := UsageReachable(id, amount, reference);
      if r.Err? { Revert(before); }
    }

    /** What a usage charge does once the parties are known to be reachable; an error may leave
        partial writes for the host to undo. */
    method UsageReachable(id: nat, amount: int, reference: string) returns (r: Result<UsageOutcome>)
      requires id in accounts
      modifies `accounts, `balance, `earnings, `tokens
      ensures match DecideUsage(cfg, old(accounts)[id], now, ledgerSeq, amount, reference)
              case FinishUsage(a', done) => r == done && (done.Ok? ==> State() == SetAccount(old(State()), id, a'))
              case SettleUsage(metered, p) =>
                var done := SettleMetered(old(State()), id, metered, p, reference);
                (match done case Ok(d) => State() == d.0 && r == Ok(d.1) case Err(e) => r == Err(e))
    {
      hide DecideMetered, SettleMetered;
      var a := accounts[id];
      assert accounts[id := a] == accounts;
      var s := Effective(a.sub, cfg.gracePeriod, now);
      if IsExpired(s, now, ledgerSeq) {
        return Err(if CanTransition(s.status, Expired) then SubscriptionExpired else InvalidStatusTransition);
      }
      if s.lifetimeCap.Some? && s.lifetimeCharged >= s.lifetimeCap.value {
        return Err(if CanTransition(s.status, Cancelled) then LifetimeCapReached else InvalidStatusTransition);
      }
      if s.status != Active { return Err(NotActive); }
      if !s.usageEnabled { return Err(UsageNotEnabled); }
      if !s.autoRenew {
        var next := NextChargeTime(s.lastPayment, s.interval);
        if next.Err? { return Err(next.error); }
        if now >= next.value { return Err(NotActive); }
      }
      if amount <= 0 { return Err(InvalidAmount); }
      if s.merchant !in cfg.capOverride && amount > s.amount { return Ok(UsageLimited(UsageMeter.UsageCapExceeded)); }
      if s.prepaid < amount { return Err(InsufficientPrepaidBalance); }
      if reference in a.references { return Ok(UsageReplay); }
      r := UsageMetered(id, s, amount, reference);
    }

    /** Rate, burst and usage limits, the remaining cap, and the settlement. */
    method UsageMetered(id: nat, s: Subscription, amount: int, reference: string) returns (r: Result<UsageOutcome>)
      requires id in accounts
      modifies `accounts, `balance, `earnings, `tokens
      ensures match DecideMetered(old(accounts)[id], s, now, amount)
              case FinishUsage(a', done) => r == done && (done.Ok? ==> State() == SetAccount(old(State()), id, a'))
              case SettleUsage(metered, p) =>
                var done := SettleMetered(old(State()), id, metered, p, reference);
                (match done case Ok(d) => State() == d.0 && r == Ok(d.1) case Err(e) => r == Err(e))
    {
      hide UsageMeter.Admit, UsageMeter.PeriodAt, SettleMetered;
      var a := accounts[id];
      var period := UsageMeter.PeriodAt(now, s.startTime, s.interval);
      assert accounts[id := a] == accounts;
      if a.limits.Some? {
        var (meter, verdict) := UsageMeter.Admit(a.meter, a.limits.value, now, period, amount);
        a := a.(meter := meter);
        accounts := accounts[id := a];
        if verdict != UsageMeter.Accepted { return Ok(UsageLimited(verdict)); }
      }
      var lifetime := SafeAdd(s.lifetimeCharged, amount);
      if lifetime.Err? { return Err(Overflow); }
      if s.lifetimeCap.Some? && lifetime.value > s.lifetimeCap.value {
        accounts := accounts[id := a.(sub := s.(status := Cancelled))];
        assert accounts == old(accounts)[id := a.(sub := s.(status := Cancelled))];
        return Ok(UsageCharged);
      }
      assert accounts == old(accounts)[id := a];
      MeterFirst(old(State()), id, a, Plan(s, amount, period, 0), reference);
      r := SettleUsageCharge(id, a, Plan(s, amount, period, 0), reference);
    }

    method SettleUsageCharge(id: nat, metered: Account, p: Plan, reference: string) returns (r: Result<UsageOutcome>)
      requires id in accounts
      modifies `accounts, `balance, `earnings, `tokens
      ensures match SettleMetered(old(State()), id, metered, p, reference) case Ok(d) => State() == d.0 && r == Ok(d.1) case Err(e) => r == Err(e)
    {
      hide Credits, Ledger.CreditAll, RecordUsage, ProductsFit;
      var feeBps := RouteFeeBps(cfg, p.sub.merchant);
      if !ProductsFit(metered, p.amount, feeBps) { return Err(HostTrap); }
      var e := CreditCharge(metered, p.sub.merchant, p.sub.token, p.amount, feeBps, cfg.treasury, StatementLog.Usage);
      if e.Some? { return Err(e.value); }
      var a := RecordUsage(metered, p, now, reference);
      if a.Err? { return Err(a.error); }
      accounts := accounts[id := a.value];
      return Ok(UsageCharged);
    }

    // ----- Disputes -----

    /** The amount moves from the merchant's balance into escrow. */
    method OpenDispute(caller: nat, id: nat, amount: int) returns (r: Result<nat>)
      modifies `balance, `disputes
      ensures DidReturn(V.OpenDispute(old(State()), caller, id, amount), old(State()), State(), r)
    {
      if amount <= 0 { return Err(InvalidAmount); }
      if id !in accounts { return Err(NotFound); }
      var s := accounts[id].sub;
      if s.subscriber != caller { return Err(Unauthorized); }
      if id in disputes.active { return Err(DisputeAlreadyOpen); }
      var available := Ledger.BalanceOf(Books(), s.merchant, s.token);
      if available < amount { return Err(DisputeAmountExceedsMerchantBalance); }
      balance := balance[(s.merchant, s.token) := available - amount];
      var d := RecordDispute(Dispute(id, caller, s.merchant, amount, now, Open, None));
      return Ok(d);
    }

    /** Allocates an id, escrows the amount and indexes the dispute. */
    method RecordDispute(d: Dispute) returns (id: nat)
      modifies `disputes
      ensures State() == OpenRecord(old(State()), d) && id == old(disputes).nextId
    {
      id := disputes.nextId;
      disputes := disputes.(nextId := WrapNext(id), escrow := disputes.escrow[id := Escrow(d.amount, 0)]);
      disputes := disputes.(records := disputes.records[id := d], active := disputes.active[d.subscription := id]);
    }

    method RespondDispute(d: nat) returns (r: Result<()>)
      modifies `disputes
      ensures Did(V.RespondDispute(old(State()), d), old(State()), State(), r)
    {
      if d !in disputes.records { return Err(DisputeNotFound); }
      var dispute := disputes.records[d];
      if dispute.status != Open { return Err(DisputeAlreadyResponded); }
      if dispute.subscription !in accounts { return Err(NotFound); }
      disputes := disputes.(records := disputes.records[d := dispute.(status := Responded, respondedAt := Some(now))]);
      return Ok(());
    }

    method ResolveDispute(d: nat, toSubscriber: bool) returns (r: Result<()>)
      modifies `disputes, `balance, `held
      ensures Did(V.ResolveDispute(old(State()), d, toSubscriber), old(State()), State(), r)
    {
      hide V.Disburse;
      if d !in disputes.records { return Err(DisputeNotFound); }
      var dispute := disputes.records[d];
      var outcome := if toSubscriber then ResolvedToSubscriber else ResolvedToMerchant;
      if dispute.status == ResolvedToMerchant || dispute.status == ResolvedToSubscriber { return Err(DisputeAlreadyResolved); }
      if dispute.status == Open {
        if SaturatingSub(now, dispute.openedAt) < cfg.disputeWindow { return Err(DisputeNotResponded); }
        outcome := ResolvedToSubscriber;
      }
      if d !in disputes.escrow { return Err(Error.InsufficientBalance); }
      var remaining := disputes.escrow[d].original - disputes.escrow[d].disbursed;
      if !InI128(remaining) { return Err(Underflow); }
      if remaining <= 0 { return Err(Error.InsufficientBalance); }
      if dispute.subscription !in accounts { return Err(NotFound); }
      r := Disburse(d, dispute, outcome, remaining);
    }

    /** The escrow goes to one party and the dispute is closed. */
    method Disburse(d: nat, dispute: Dispute, outcome: DisputeStatus, remaining: int) returns (r: Result<()>)
      requires dispute.subscription in accounts
      modifies `disputes, `balance, `held
      ensures Did(V.Disburse(old(State()), d, dispute, outcome, remaining), old(State()), State(), r)
    {
      hide Ledger.BalanceOf;
      var token := accounts[dispute.subscription].sub.token;
      if outcome == ResolvedToMerchant {
        var x := Ledger.BalanceOf(Books(), dispute.merchant, token) + remaining;
        if !InI128(x) { return Err(Overflow); }
        balance := balance[(dispute.merchant, token) := x];
      } else {
        if Held(State(), token) < remaining { return Err(HostTrap); }
        held := held[token := Held(State(), token) - remaining];
      }
      CloseRecord(d, dispute, outcome);
      return Ok(());
    }

    /** The record is closed, its escrow removed and the index cleared. */
    method CloseRecord(d: nat, dispute: Dispute, outcome: DisputeStatus)
      modifies `disputes
      ensures disputes == Disputes(old(disputes).records[d := dispute.(status := outcome)], old(disputes).escrow - {d},
                                   old(disputes).active - {dispute.subscription}, old(disputes).nextId)
    {
      disputes := Disputes(disputes.records[d := dispute.(status := outcome)], disputes.escrow - {d},
                           disputes.active - {dispute.subscription}, disputes.nextId);
    }

    method ClaimEscrow(caller: nat, id: nat) returns (r: Result<()>)
      modifies `escrows, `held
      ensures Did(V.ClaimEscrow(old(State()), caller, id), old(State()), State(), r)
    {
      if id !in escrows { return Err(EscrowNotFound); }
      var e := escrows[id];
      if caller != e.subscriber { return Err(Unauthorized); }
      if now < e.releasedAt { return Err(EscrowNotReleased); }
      if id in disputes.active { return Err(DisputeAlreadyOpen); }
      if Held(State(), e.token) < e.amount { return Err(HostTrap); }
      escrows := escrows - {id};
      held := held[e.token := Held(State(), e.token) - e.amount];
      return Ok(());
    }

    /** A claimed-against cancellation escrow becomes a dispute of the same amount. */
    method LodgeEscrowDispute(caller: nat, id: nat) returns (r: Result<nat>)
      modifies `escrows, `disputes
      ensures DidReturn(V.LodgeEscrowDispute(old(State()), caller, id), old(State()), State(), r)
    {
      if id !in escrows { return Err(EscrowNotFound); }
      var e := escrows[id];
      if caller != e.merchant { return Err(Unauthorized); }
      if now >= e.releasedAt { return Err(EscrowNotReleased); }
      if id in disputes.active { return Err(DisputeAlreadyOpen); }
      escrows := escrows - {id};
      var d := RecordDispute(Dispute(id, e.subscriber, e.merchant, e.amount, now, Open, None));
      return Ok(d);
    }

    // ----- Coupons -----

    /** Counts a redemption only if the counter is still what the caller saw. */
    method CasIncrementRedemptions(code: nat, expected: nat, maxRedemptions: nat) returns (r: Result<()>)
      modifies `redemptions
      ensures Did(CasIncrement(old(State()), code, expected, maxRedemptions), old(State()), State(), r)
    {
      var current := CountOf(redemptions, code);
      if current != expected { return Err(CouponRedemptionLimitReached); }
      if maxRedemptions > 0 && current >= maxRedemptions { return Err(CouponRedemptionLimitReached); }
      redemptions := redemptions[code := SaturatingAdd32(current, 1)];
      return Ok(());
    }

    method ApplyCoupon(caller: nat, id: nat, code: nat) returns (r: Result<()>)
      modifies `redemptions, `accounts
      ensures Did(V.ApplyCoupon(old(State()), caller, id, code), old(State()), State(), r)
    {
      if cfg.emergencyStop { return Err(EmergencyStopActive); }
      if id !in accounts { return Err(NotFound); }
      var a := accounts[id];
      if a.sub.subscriber != caller { return Err(Unauthorized); }
      if a.coupon.Some? { return Err(if a.coupon.value == code then Error.Replay else CouponAlreadyApplied); }
      if code !in cfg.coupons { return Err(CouponNotFound); }
      var c := cfg.coupons[code];
      if c.revoked { return Err(CouponRevoked); }
      if c.expiresAt > 0 && now >= c.expiresAt { return Err(CouponExpired); }
      var seen := CountOf(redemptions, code);
      if c.maxRedemptions > 0 && seen >= c.maxRedemptions { return Err(CouponRedemptionLimitReached); }
      if c.token != a.sub.token { return Err(CouponTokenMismatch); }
      var counted := CasIncrementRedemptions(code, seen, c.maxRedemptions);
      if counted.Err? { return Err(CouponRedemptionLimitReached); }
      accounts := accounts[id := a.(coupon := Some(code))];
      return Ok(());
    }

    // ----- Renewal -----

    method SetAutoRenew(caller: nat, id: nat, enabled: bool) returns (r: Result<()>)
      modifies `accounts
      ensures Did(V.SetAutoRenew(old(State()), caller, id, enabled), old(State()), State(), r)
    {
      hide IsExpired, Effective;
      if id !in accounts { return Err(NotFound); }
      var s := Effective(accounts[id].sub, cfg.gracePeriod, now);
      if s.status == Cancelled { return Err(InvalidStatusTransition); }
      if IsExpired(s, now, ledgerSeq) { return Err(SubscriptionExpired); }
      if caller != s.subscriber && caller != s.merchant { return Err(Forbidden); }
      if enabled {
        if !s.autoRenew {
          if !InRenewalWindow(s, now) { return Err(RenewalWindowClosed); }
          s := s.(renewDisabledAt := None);
        }
      } else {
        if s.autoRenew { s := s.(renewDisabledAt := Some(now)); }
      }
      accounts := accounts[id := accounts[id].(sub := s.(autoRenew := enabled))];
      return Ok(());
    }

    // ----- Splits -----

    /** Positive weights that sum to 10000 in u32 arithmetic, and nobody blocklisted. */
    method ValidateSplit(payees: seq<(nat, nat)>) returns (r: Result<()>)
      ensures r == CheckSplit(cfg, payees)
    {
      if payees == [] { return Err(InvalidInput); }
      var total, i := 0, 0;
      while i < |payees|
        invariant 0 <= i <= |payees|
        invariant CheckPayees(cfg, payees, i) == Ok(total)
      {
        var (payee, weight) := payees[i];
        i := i + 1;
        if weight == 0 || total + weight > U32_MAX {
          RefusalPersists(cfg, payees, i, |payees|);
          return Err(InvalidInput);
        }
        if payee in cfg.blocked {
          RefusalPersists(cfg, payees, i, |payees|);
          return Err(SubscriberBlocklisted);
        }
        total := total + weight;
      }
      return if total == ChargeMath.BPS then Ok(()) else Err(InvalidInput);
    }

    method UpdateSplit(caller: nat, id: nat, payees: Option<seq<(nat, nat)>>) returns (r: Result<()>)
      modifies `accounts
      ensures Did(V.UpdateSplit(old(State()), caller, id, payees), old(State()), State(), r)
    {
      hide CheckSplit;
      if cfg.emergencyStop { return Err(EmergencyStopActive); }
      if id !in accounts { return Err(NotFound); }
      var s := EffectiveSub(State(), id);
      if s.subscriber != caller { return Err(Unauthorized); }
      if s.status == Cancelled || s.status == Expired { return Err(NotActive); }
      if payees.Some? {
        var valid := ValidateSplit(payees.value);
        if valid.Err? { return Err(valid.error); }
      }
      accounts := accounts[id := accounts[id].(split := payees)];
      return Ok(());
    }

    // ----- Merchants -----

    /** A first configuration needs approval and clears the pause flag. */
    method InitializeMerchant(merchant: nat, feeBips: int, operations: int) returns (r: Result<()>)
      modifies `merchants, `cfg
      ensures Did(V.InitializeMerchant(old(State()), merchant, feeBips, operations), old(State()), State(), r)
    {
      if cfg.whitelistMode && merchant !in cfg.approved { return Err(MerchantNotApproved); }
      r := SetMerchantConfig(merchant, feeBips, operations, false);
    }

    method SetMerchantConfig(merchant: nat, feeBips: int, operations: int, paused: bool) returns (r: Result<()>)
      modifies `merchants, `cfg
      ensures Did(V.SetMerchantConfig(old(State()), merchant, feeBips, operations, paused), old(State()), State(), r)
    {
      if feeBips > MAX_FEE_BIPS { return Err(InvalidFeeBips); }
      if !(0 <= operations <= ALL_OPERATIONS) { return Err(InvalidOperations); }
      if operations % 2 == 0 { return Err(MustAllowChargeOperation); }
      merchants := merchants.(configured := merchants.configured + {merchant});
      cfg := cfg.(paused := cfg.paused[merchant := paused]);
      return Ok(());
    }

    method WithdrawMerchant(merchant: nat, token: nat, amount: int) returns (r: Result<()>)
      modifies `balance, `earnings, `held
      ensures Did(V.WithdrawMerchant(old(State()), merchant, token, amount), old(State()), State(), r)
    {
      hide Ledger.BalanceOf, Ledger.EarningsOf;
      if cfg.emergencyStop { return Err(EmergencyStopActive); }
      if cfg.whitelistMode && merchant !in cfg.approved { return Err(MerchantNotApproved); }
      if merchant in cfg.blocked { return Err(SubscriberBlocklisted); }
      if amount <= 0 { return Err(InvalidAmount); }
      if token !in cfg.acceptedTokens { return Err(InvalidInput); }
      if merchant !in merchants.configured { return Err(NotFound); }
      var available := Ledger.BalanceOf(Books(), merchant, token);
      if available == 0 { return Err(NotFound); }
      if amount > available { return Err(Error.InsufficientBalance); }
      if Held(State(), token) < amount { return Err(Error.InsufficientBalance); }
      var e := Ledger.EarningsOf(Books(), merchant, token);
      if !InI128(e.refunds + amount) { return Err(Overflow); }
      if !InI128(e.withdrawals + amount) { return Err(Overflow); }
      balance := balance[(merchant, token) := available - amount];
      earnings := earnings[(merchant, token) := e.(refunds := e.refunds + amount, withdrawals := e.withdrawals + amount)];
      held := held[token := Held(State(), token) - amount];
      return Ok(());
    }

    method MerchantRefund(merchant: nat, token: nat, amount: int) returns (r: Result<()>)
      modifies `balance, `earnings, `held
      ensures Did(V.MerchantRefund(old(State()), merchant, token, amount), old(State()), State(), r)
    {
      hide Ledger.BalanceOf, Ledger.EarningsOf;
      if cfg.whitelistMode && merchant !in cfg.approved { return Err(MerchantNotApproved); }
      if amount <= 0 { return Err(InvalidAmount); }
      if merchant !in merchants.configured { return Err(NotFound); }
      var available := Ledger.BalanceOf(Books(), merchant, token);
      if available == 0 { return Err(NotFound); }
      if amount > available { return Err(Error.InsufficientBalance); }
      var e := Ledger.EarningsOf(Books(), merchant, token);
      if !InI128(e.refunds + amount) { return Err(Overflow); }
      if Held(State(), token) < amount { return Err(HostTrap); }
      balance := balance[(merchant, token) := available - amount];
      earnings := earnings[(merchant, token) := e.(refunds := e.refunds + amount)];
      held := held[token := Held(State(), token) - amount];
      return Ok(());
    }

    method FlushToken(merchant: nat, token: nat, minPayout: int) returns (r: Result<int>)
      modifies `balance, `earnings, `held
      ensures match V.FlushToken(old(State()), merchant, token, minPayout)
              case Ok(d) => State() == d.0 && r == Ok(d.1)
              case Err(e) => r == Err(e)
    {
      var due := Ledger.BalanceOf(Books(), merchant, token);
      if due < minPayout || due <= 0 { return Ok(0); }
      if merchant !in merchants.configured { return Err(NotFound); }
      balance := balance[(merchant, token) := 0];
      var e := Ledger.EarningsOf(Books(), merchant, token);
      if !InI128(e.withdrawals + due) { return Err(Overflow); }
      earnings := earnings[(merchant, token) := e.(withdrawals := e.withdrawals + due)];
      if Held(State(), token) < due { return Err(HostTrap); }
      held := held[token := Held(State(), token) - due];
      return Ok(due);
    }

    /** Pays out every listed token that reaches the minimum, once per cadence. */
    method FlushPayouts(merchant: nat) returns (r: Result<nat>)
      modifies this
      ensures DidReturn(V.FlushPayouts(old(State()), merchant), old(State()), State(), r)
    {
      hide V.FlushToken;
      if cfg.emergencyStop { return Err(EmergencyStopActive); }
      if cfg.whitelistMode && merchant !in cfg.approved { return Err(MerchantNotApproved); }
      var schedule := ScheduleOf(State(), merchant);
      if schedule.cadence == 0 && schedule.minPayout == 0 { return Ok(0); }
      if schedule.lastPayoutAt > 0 && SaturatingSub(now, schedule.lastPayoutAt) < schedule.cadence { return Err(IntervalNotElapsed); }
      var before, listed := State(), Ledger.TokensOf(Books(), merchant);
      var paid, i := 0, 0;
      while i < |listed|
        invariant 0 <= i <= |listed|
        invariant Ok((State(), paid)) == FlushTokens(before, merchant, listed, schedule.minPayout, i)
      {
        var done := FlushToken(merchant, listed[i], schedule.minPayout);
        i := i + 1;
        if done.Err? {
          FlushErrorStays(before, merchant, listed, schedule.minPayout, i, |listed|);
          Revert(before);
          return Err(done.error);
        }
        if done.value > 0 { paid := SaturatingAdd32(paid, 1); }
      }
      FlushClock(before, merchant, listed, schedule.minPayout);
      merchants := merchants.(schedules := merchants.schedules[merchant := schedule.(lastPayoutAt := now)]);
      return Ok(paid);
    }

    /** Books, then the lists, the configuration and the subscriptions. */
    method RotateMerchant(oldAddr: nat, newAddr: nat) returns (r: Result<()>)
      modifies this
      ensures Did(V.RotateMerchant(old(State()), oldAddr, newAddr), old(State()), State(), r)
    {
      hide MoveTokens, Readdress, MoveList, MoveKey;
      var before := State();
      r := MoveAllTokens(oldAddr, newAddr, Ledger.TokensOf(Books(), oldAddr));
      if r.Err? {
        Revert(before);
        return;
      }
      RotateRegistration(oldAddr, newAddr);
    }

    /** Token list, pause and vacation, subscriptions, registration. */
    method RotateRegistration(oldAddr: nat, newAddr: nat)
      modifies `tokens, `cfg, `accounts, `merchants
      ensures tokens == MoveList(old(tokens), oldAddr, newAddr)
      ensures cfg == old(cfg).(paused := MoveKey(old(cfg).paused, oldAddr, newAddr), vacations := MoveKey(old(cfg).vacations, oldAddr, newAddr))
      ensures accounts == Readdress(old(accounts), if oldAddr in old(merchants).subs then old(merchants).subs[oldAddr] else [], oldAddr, newAddr)
      ensures merchants == old(merchants).(
                configured := (if oldAddr in old(merchants).configured then old(merchants).configured + {newAddr} - {oldAddr} else old(merchants).configured),
                subs := MoveList(old(merchants).subs, oldAddr, newAddr))
    {
      hide MoveList, MoveKey, Readdress;
      tokens := MergeList(tokens, oldAddr, newAddr);
      cfg := cfg.(paused := MoveKey(cfg.paused, oldAddr, newAddr), vacations := MoveKey(cfg.vacations, oldAddr, newAddr));
      ReaddressAll(if oldAddr in merchants.subs then merchants.subs[oldAddr] else [], oldAddr, newAddr);
      var subs := MergeList(merchants.subs, oldAddr, newAddr);
      if oldAddr in merchants.configured {
        merchants := merchants.(configured := merchants.configured + {newAddr} - {oldAddr});
      }
      merchants := merchants.(subs := subs);
    }

    /** Balance and earnings of each listed token move to the new address. */
    method MoveAllTokens(oldAddr: nat, newAddr: nat, listed: seq<nat>) returns (r: Result<()>)
      modifies `balance, `earnings
      ensures match MoveTokens(old(Books()), oldAddr, newAddr, listed, |listed|)
              case Ok(l) => balance == l.balance && earnings == l.earnings && r == Ok(())
              case Err(e) => r == Err(e)
    {
      hide MoveToken;
      ghost var before := Books();
      var i := 0;
      while i < |listed|
        invariant 0 <= i <= |listed|
        invariant Ok(Books()) == MoveTokens(before, oldAddr, newAddr, listed, i)
      {
        var moved := MoveOneToken(oldAddr, newAddr, listed[i]);
        i := i + 1;
        if moved.Err? {
          MoveErrorStays(before, oldAddr, newAddr, listed, i, |listed|);
          return Err(moved.error);
        }
      }
      return Ok(());
    }

    method MoveOneToken(oldAddr: nat, newAddr: nat, token: nat) returns (r: Result<()>)
      modifies `balance, `earnings
      ensures match MoveToken(old(Books()), oldAddr, newAddr, token)
              case Ok(l) => Books() == l && r == Ok(())
              case Err(e) => r == Err(e)
    {
      var moved := Ledger.BalanceOf(Books(), oldAddr, token);
      if moved != 0 {
        var x := Ledger.BalanceOf(Books(), newAddr, token) + moved;
        if !InI128(x) { return Err(HostTrap); }
        balance := balance[(newAddr, token) := x];
      }
      balance := balance - {(oldAddr, token)};
      if (oldAddr, token) in earnings {
        earnings := earnings[(newAddr, token) := earnings[(oldAddr, token)]];
        earnings := earnings - {(oldAddr, token)};
      }
      return Ok(());
    }

    /** The new address's list, extended by what it does not have yet; the old entry goes. */
    method MergeList(lists: map<nat, seq<nat>>, oldAddr: nat, newAddr: nat) returns (merged: map<nat, seq<nat>>)
      ensures merged == MoveList(lists, oldAddr, newAddr)
    {
      merged := lists;
      var more := if oldAddr in lists then lists[oldAddr] else [];
      if more != [] {
        var base := if newAddr in lists then lists[newAddr] else [];
        var all, i := base, 0;
        while i < |more|
          invariant 0 <= i <= |more| && all == Merged(base, more, i)
        {
          if more[i] !in all { all := all + [more[i]]; }
          i := i + 1;
        }
        merged := merged[newAddr := all];
      }
      merged := merged - {oldAddr};
    }

    /** Rewrites the merchant of each listed subscription that names the old address. */
    method ReaddressAll(ids: seq<nat>, oldAddr: nat, newAddr: nat)
      modifies `accounts
      ensures accounts == Readdress(old(accounts), ids, oldAddr, newAddr)
    {
      var i := 0;
      ghost var before := accounts;
      assert accounts == Readdress(before, ids[..0], oldAddr, newAddr);
      while i < |ids|
        invariant 0 <= i <= |ids|
        invariant accounts == Readdress(before, ids[..i], oldAddr, newAddr)
      {
        var id := ids[i];
        if id in accounts && accounts[id].sub.merchant == oldAddr {
          accounts := accounts[id := accounts[id].(sub := accounts[id].sub.(merchant := newAddr))];
        }
        assert ids[..i + 1] == ids[..i] + [id];
        assert accounts == Readdress(before, ids[..i + 1], oldAddr, newAddr);
        i := i + 1;
      }
      assert ids[..i] == ids;
    }
  }

  lemma {:induction false} FlushErrorStays(v: Vault, merchant: nat, listed: seq<nat>, minPayout: int, i: nat, n: nat)
    requires i <= n <= |listed| && FlushTokens(v, merchant, listed, minPayout, i).Err?
    ensures FlushTokens(v, merchant, listed, minPayout, n) == FlushTokens(v, merchant, listed, minPayout, i)
  {
    if i < n { FlushErrorStays(v, merchant, listed, minPayout, i, n - 1); }
  }

  lemma {:induction false} MoveErrorStays(l: Ledger.Ledger, oldAddr: nat, newAddr: nat, listed: seq<nat>, i: nat, n: nat)
    requires i <= n <= |listed| && MoveTokens(l, oldAddr, newAddr, listed, i).Err?
    ensures MoveTokens(l, oldAddr, newAddr, listed, n) == MoveTokens(l, oldAddr, newAddr, listed, i)
  {
    if i < n { MoveErrorStays(l, oldAddr, newAddr, listed, i, n - 1); }
  }

  lemma FlushClock(v: Vault, merchant: nat, listed: seq<nat>, minPayout: int)
    requires FlushTokens(v, merchant, listed, minPayout, |listed|).Ok?
    ensures var v' := FlushTokens(v, merchant, listed, minPayout, |listed|).value.0; v'.now == v.now && v'.merchants == v.merchants
  {
    VaultFrames.FlushTokensCalm(v, merchant, listed, minPayout, |listed|);
  }

  lemma {:induction false} RefusalPersists(cfg: Config, payees: seq<(nat, nat)>, i: nat, n: nat)
    requires i <= n <= |payees| && CheckPayees(cfg, payees, i).Err?
    ensures CheckPayees(cfg, payees, n) == CheckPayees(cfg, payees, i)
  {
    if i < n { RefusalPersists(cfg, payees, i, n - 1); }
  }

  lemma {:induction false} TrapStays(v: Vault, ids: seq<nat>, keys: Option<seq<nat>>, admin: Option<Admin>, cache: Option<Cache>, i: nat, n: nat)
    requires i <= n <= |ids| && BatchRun(v, ids, keys, admin, cache, i).trapped
    ensures BatchRun(v, ids, keys, admin, cache, n).trapped
  {
    if i < n { TrapStays(v, ids, keys, admin, cache, i, n - 1); }
  }
}
