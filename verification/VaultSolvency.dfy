/** Solvency: while the contract holds at least what it owes, no payout can fail in the token
    contract, and the calls that do not leak keep it that way. */
module VaultSolvency {
  import opened Base
  import opened Accounts
  import opened AccountLaws
  import opened Vault
  import opened VaultTotals
  import opened VaultInvariant
  import opened VaultFrames
  import opened VaultConservation
  import StatementLog
  import Ledger

  /** Holdings are i128 amounts that cover the liabilities, in every token. */
  ghost predicate Solvent(v: Vault) { forall t :: SolventIn(v, t) }

  ghost predicate SolventIn(v: Vault, t: nat) { Held(v, t) <= I128_MAX && Surplus(v, t) >= 0 }

  /** A payment out of any single liability is covered. */
  lemma PartsCovered(v: Vault, t: nat)
    requires Inv(v) && SolventIn(v, t)
    ensures 0 <= Liabilities(v, t) <= Held(v, t) <= I128_MAX
    ensures forall id :: id in v.accounts && v.accounts[id].sub.token == t ==> v.accounts[id].sub.prepaid <= Held(v, t)
    ensures forall who :: 0 <= Ledger.BalanceOf(v.ledger, who, t) <= Held(v, t)
    ensures forall d :: d in EscrowMap(v.disputes, v.accounts, t) ==> v.disputes.escrow[d].original - v.disputes.escrow[d].disbursed <= Held(v, t)
    ensures forall id :: id in v.escrows && v.escrows[id].token == t ==> v.escrows[id].amount <= Held(v, t)
  {
    hide Inv;
    InvParts(v);
    PartsBelowLiabilities(v, t);
    forall who ensures 0 <= Ledger.BalanceOf(v.ledger, who, t) <= Ledger.BalanceTotal(v.ledger, t) {
      Ledger.BalanceBelowTotal(v.ledger, who, t);
    }
  }

  /** The prepaid balances are covered, whatever else is owed. */
  ghost predicate PrepaidCovered(v: Vault) { forall t :: Prepaid(v.accounts, t) <= Held(v, t) }

  lemma SolventCoversPrepaid(v: Vault)
    requires Inv(v) && Solvent(v)
    ensures PrepaidCovered(v)
  {
    hide Inv;
    InvParts(v);
    forall t ensures Prepaid(v.accounts, t) <= Held(v, t) {
      assert SolventIn(v, t);
      PartsBelowLiabilities(v, t);
    }
  }

  lemma OwnPrepaidCovered(v: Vault, id: nat)
    requires Inv(v) && id in v.accounts && PrepaidCovered(v)
    ensures v.accounts[id].sub.prepaid <= Held(v, v.accounts[id].sub.token)
  {
    hide Inv;
    InvParts(v);
    PartsBelowLiabilities(v, v.accounts[id].sub.token);
    assert Prepaid(v.accounts, v.accounts[id].sub.token) <= Held(v, v.accounts[id].sub.token);
  }

  // ----- Payouts are covered -----

  lemma ScheduledRefundCovered(v: Vault, id: nat, settings: Admin, key: Option<nat>, d: Decision)
    requires Inv(v) && id in v.accounts && MovesNothing(v.accounts[id], d) && PrepaidCovered(v)
    requires d.Finish? ==> d.result != Err(HostTrap)
    ensures Carry(v, id, settings, key, d).1 != Err(HostTrap)
  {
    hide Inv, PrepaidCovered, AccountInv;
    OwnPrepaidCovered(v, id);
    if d.Settle? { SettleNeverTraps(v, id, settings, d.plan, key); }
  }

  lemma SettleNeverTraps(v: Vault, id: nat, settings: Admin, p: Plan, key: Option<nat>)
    requires id in v.accounts
    ensures SettleInterval(v, id, settings, p, key).1 != Err(HostTrap)
  {
    hide Credits, StatementLog.Append, Snapshots.Write, IdemRing.PushKey;
    var a := v.accounts[id];
    CreditAllErrors(v.ledger, Credits(a, p.sub.merchant, p.amount, settings.feeBps, settings.treasury), p.sub.token, StatementLog.Interval);
    AppendErrors(a.log, v.now, SaturatingSub(p.nextAllowed, p.sub.interval), p.amount, p.sub.merchant, p.sub.token, StatementLog.Interval);
    WriteErrors(a.snaps, IntervalSnapshot(p, v.now));
    if key.Some? { PushErrors(a.idem, Fingerprint(id, key.value), v.now, v.cfg.idemTtl); }
  }

  lemma {:induction false} CreditAllErrors(l: Ledger.Ledger, credits: seq<(nat, int)>, token: nat, kind: StatementLog.Kind)
    ensures Ledger.CreditAll(l, credits, token, kind).1 != Some(HostTrap)
  {
    if credits != [] { CreditAllErrors(l, credits[..|credits| - 1], token, kind); }
  }

  lemma AppendErrors(log: StatementLog.Log, chargedAt: nat, start: nat, amount: int, merchant: nat, token: nat, kind: StatementLog.Kind)
    ensures StatementLog.Append(log, chargedAt, start, amount, merchant, token, kind) != Err(HostTrap)
  {}

  lemma WriteErrors(store: Snapshots.Store, s: Snapshots.Snapshot)
    ensures Snapshots.Write(store, s) != Err(HostTrap)
  {}

  lemma PushErrors(b: IdemRing.Buffer, key: IdemRing.Fingerprint, now: nat, ttl: nat)
    ensures IdemRing.PushKey(b, key, now, ttl) != Err(HostTrap)
  {}

  lemma DecisionErrors(cfg: Config, admin: Admin, a: Account, id: nat, now: nat, ledgerSeq: nat, key: Option<nat>)
    requires ConfigOk(cfg) && AccountInv(a, now)
    ensures var d := DecideInterval(cfg, admin, a, id, now, ledgerSeq, key); d.Finish? ==> d.result != Err(HostTrap)
  {
    hide ConfigOk, AccountInv, UsageMeter.PeriodAt, IdemRing.CheckKey;
    AmountErrors(cfg, a, now);
  }

  lemma AmountErrors(cfg: Config, a: Account, now: nat)
    ensures ChargeAmount(cfg, a, now) != Err(HostTrap)
  {
    hide Discount;
  }

  lemma {:induction false} PayeeErrors(cfg: Config, payees: seq<(nat, nat)>, now: nat)
    ensures PayeeObstacle(cfg, payees, now) != Some(HostTrap)
  {
    if payees != [] { PayeeErrors(cfg, payees[1..], now); }
  }

  /** No charge fails in the token contract, whatever it decides, as long as the prepaid balances
      are covered; and it keeps them so, whatever else it leaves behind. */
  lemma ChargeNeverTraps(v: Vault, id: nat, key: Option<nat>, admin: Option<Admin>, cache: Option<Cache>)
    requires Inv(v) && PrepaidCovered(v)
    ensures ChargeOne(v, id, key, admin, cache).result != Err(HostTrap)
    ensures PrepaidCovered(ChargeOne(v, id, key, admin, cache).vault)
  {
    hide DecideInterval, Carry, PrepaidCovered, AccountInv, EachAccount, DisputesOk, EscrowsOk, CouponsOk, LedgerOk, SettledBy;
    if id in v.accounts {
      var a := v.accounts[id];
      var settings := if admin.Some? then admin.value else StoredAdmin(v.cfg);
      if a.split.Some? { PayeeErrors(v.cfg, a.split.value, v.now); }
      Known(v, id);
      FinishIsHarmless(v.cfg, settings, a, id, v.now, v.ledgerSeq, key);
      DecisionErrors(v.cfg, settings, a, id, v.now, v.ledgerSeq, key);
      var d := DecideInterval(v.cfg, settings, a, id, v.now, v.ledgerSeq, key);
      if d.Settle? { SettleGuards(v.cfg, settings, a, id, v.now, v.ledgerSeq, key); }
      ScheduledRefundCovered(v, id, settings, key, d);
      CarryKeepsCover(v, id, settings, key, d);
    }
  }

  /** A settlement lowers the balance, a refund moves balance and holdings alike. */
  lemma CarryKeepsCover(v: Vault, id: nat, settings: Admin, key: Option<nat>, d: Decision)
    requires Inv(v) && id in v.accounts && MovesNothing(v.accounts[id], d) && PrepaidCovered(v)
    requires d.Settle? ==> SettledBy(v.accounts[id], d.plan, v.now)
    ensures PrepaidCovered(Carry(v, id, settings, key, d).0)
  {
    hide Inv, Carry, Prepaid, MovesNothing, SettledBy;
    var v' := Carry(v, id, settings, key, d).0;
    CarryFrame(v, id, settings, key, d);
    CarryMoves(v, id, settings, key, d);
    forall t ensures Prepaid(v'.accounts, t) <= Held(v', t) {
      assert Prepaid(v.accounts, t) <= Held(v, t);
      SetAccountPrepaid(v.accounts, id, v'.accounts[id], t);
    }
  }

  lemma CarryMoves(v: Vault, id: nat, settings: Admin, key: Option<nat>, d: Decision)
    requires Inv(v) && id in v.accounts && MovesNothing(v.accounts[id], d)
    requires d.Settle? ==> SettledBy(v.accounts[id], d.plan, v.now)
    ensures var v' := Carry(v, id, settings, key, d).0; var token := v.accounts[id].sub.token;
            && id in v'.accounts && v'.accounts[id].sub.token == token
            && v'.accounts[id].sub.prepaid <= v.accounts[id].sub.prepaid
            && forall t :: Held(v', t) == Held(v, t) || (t == token && Held(v', t) == Held(v, t) - (v.accounts[id].sub.prepaid - v'.accounts[id].sub.prepaid))
  {
    hide Inv, Credits, Ledger.CreditAll, RecordInterval, SettledBy;
    KnownShape(v, id);
    if d.Settle? {
      SettledTerms(v, id, d.plan);
      RecordIntervalFrame(v.cfg, v.accounts[id], d.plan, id, v.now, key);
    }
  }

  /** Resolving, claiming, withdrawing, refunding, cancelling and flushing never fail in the
      token contract. */
  lemma ResolveNeverTraps(v: Vault, disputeId: nat, toSubscriber: bool)
    requires Inv(v) && Solvent(v)
    ensures ResolveDispute(v, disputeId, toSubscriber) != Err(HostTrap)
  {
    hide Inv, SolventIn, Disburse, Resolution;
    ResolutionErrors(v, disputeId, toSubscriber);
    if disputeId in v.disputes.records && disputeId in v.disputes.escrow && v.disputes.records[disputeId].subscription in v.accounts {
      var token := v.accounts[v.disputes.records[disputeId].subscription].sub.token;
      assert SolventIn(v, token);
      PartsCovered(v, token);
      assert disputeId in EscrowMap(v.disputes, v.accounts, token);
      var d := v.disputes.records[disputeId];
      var outcome := Resolution(d, SaturatingSub(v.now, d.openedAt) >= v.cfg.disputeWindow, toSubscriber);
      if outcome.Ok? { DisburseCovered(v, disputeId, d, outcome.value, v.disputes.escrow[disputeId].original - v.disputes.escrow[disputeId].disbursed); }
    }
  }

  lemma ResolutionErrors(v: Vault, disputeId: nat, toSubscriber: bool)
    ensures forall d, elapsed :: Resolution(d, elapsed, toSubscriber) != Err(HostTrap)
  {}

  lemma DisburseCovered(v: Vault, disputeId: nat, d: Dispute, outcome: DisputeStatus, remaining: int)
    requires d.subscription in v.accounts && remaining <= Held(v, v.accounts[d.subscription].sub.token)
    ensures Disburse(v, disputeId, d, outcome, remaining) != Err(HostTrap)
  {}

  lemma SubscriberPayoutsNeverTrap(v: Vault, caller: nat, id: nat)
    requires Inv(v) && Solvent(v)
    ensures ClaimEscrow(v, caller, id) != Err(HostTrap)
    ensures WithdrawSubscriber(v, caller, id) != Err(HostTrap)
    ensures Cancel(v, caller, id) != Err(HostTrap)
  {
    hide SolventIn, Inv;
    if id in v.accounts {
      EffectiveHarmless(v, id);
      assert SolventIn(v, v.accounts[id].sub.token);
      PartsCovered(v, v.accounts[id].sub.token);
    }
    if id in v.escrows {
      assert SolventIn(v, v.escrows[id].token);
      PartsCovered(v, v.escrows[id].token);
    }
  }

  lemma MerchantPayoutsNeverTrap(v: Vault, merchant: nat, token: nat, amount: int)
    requires Inv(v) && Solvent(v)
    ensures WithdrawMerchant(v, merchant, token, amount) != Err(HostTrap)
    ensures MerchantRefund(v, merchant, token, amount) != Err(HostTrap)
  {
    hide SolventIn, Inv;
    assert SolventIn(v, token);
    PartsCovered(v, token);
  }

  lemma RotationNeverTraps(v: Vault, oldAddr: nat, newAddr: nat)
    requires Inv(v) && Solvent(v) && oldAddr != newAddr
    ensures RotateMerchant(v, oldAddr, newAddr) != Err(HostTrap)
  {
    hide SolventIn, Inv, MoveTokens;
    InvParts(v);
    forall t ensures Ledger.BalanceTotal(v.ledger, t) <= I128_MAX {
      assert SolventIn(v, t);
      PartsCovered(v, t);
      PartsBelowLiabilities(v, t);
    }
    MovesNeverTrap(v.ledger, oldAddr, newAddr, Ledger.TokensOf(v.ledger, oldAddr), |Ledger.TokensOf(v.ledger, oldAddr)|);
  }

  lemma {:induction false} MovesNeverTrap(l: Ledger.Ledger, oldAddr: nat, newAddr: nat, tokens: seq<nat>, n: nat)
    requires n <= |tokens| && oldAddr != newAddr && Ledger.NonNegative(l) && forall t :: Ledger.BalanceTotal(l, t) <= I128_MAX
    ensures MoveTokens(l, oldAddr, newAddr, tokens, n).Ok?
    ensures Ledger.NonNegative(MoveTokens(l, oldAddr, newAddr, tokens, n).value)
    ensures forall t :: Ledger.BalanceTotal(MoveTokens(l, oldAddr, newAddr, tokens, n).value, t) <= I128_MAX
  {
    hide Ledger.BalanceTotal;
    if n > 0 {
      MovesNeverTrap(l, oldAddr, newAddr, tokens, n - 1);
      var l1, token := MoveTokens(l, oldAddr, newAddr, tokens, n - 1).value, tokens[n - 1];
      TwoBelowTotal(l1, oldAddr, newAddr, token);
      forall t ensures Ledger.BalanceTotal(MoveToken(l1, oldAddr, newAddr, token).value, t) <= I128_MAX {
        MoveTokenTotal(l1, oldAddr, newAddr, token, t);
      }
    }
  }

  lemma TwoBelowTotal(l: Ledger.Ledger, a: nat, b: nat, token: nat)
    requires Ledger.NonNegative(l) && a != b
    ensures Ledger.BalanceOf(l, a, token) + Ledger.BalanceOf(l, b, token) <= Ledger.BalanceTotal(l, token)
  {
    hide Ledger.BalanceTotal;
    RemoveBalanceTotal(l, a, token, token);
    var rest := l.(balance := l.balance - {(a, token)});
    Ledger.BalanceBelowTotal(rest, b, token);
  }

  // ----- Flushing and batches -----

  lemma {:induction false} FlushTokensSolvent(v: Vault, merchant: nat, tokens: seq<nat>, minPayout: int, n: nat)
    requires n <= |tokens| && Inv(v) && Solvent(v)
    ensures FlushTokens(v, merchant, tokens, minPayout, n) != Err(HostTrap)
    ensures Solvent(KeptFirst(v, FlushTokens(v, merchant, tokens, minPayout, n)))
  {
    hide Inv, SolventIn, FlushToken;
    forall t ensures SolventIn(KeptFirst(v, FlushTokens(v, merchant, tokens, minPayout, n)), t) {
      assert SolventIn(v, t);
      FlushKeepsSolvency(v, merchant, tokens, minPayout, n, t);
    }
    if n > 0 {
      FlushTokensSolvent(v, merchant, tokens, minPayout, n - 1);
      FlushTokensInv(v, merchant, tokens, minPayout, n - 1);
      var v1 := KeptFirst(v, FlushTokens(v, merchant, tokens, minPayout, n - 1));
      assert SolventIn(v1, tokens[n - 1]);
      FlushTokenCovered(v1, merchant, tokens[n - 1], minPayout);
    }
  }

  lemma FlushKeepsSolvency(v: Vault, merchant: nat, tokens: seq<nat>, minPayout: int, n: nat, t: nat)
    requires n <= |tokens| && SolventIn(v, t)
    ensures SolventIn(KeptFirst(v, FlushTokens(v, merchant, tokens, minPayout, n)), t)
  {
    hide Surplus, FlushTokens;
    FlushTokensCalm(v, merchant, tokens, minPayout, n);
    FlushTokensSurplus(v, merchant, tokens, minPayout, n, t);
  }

  lemma FlushTokenCovered(v: Vault, merchant: nat, token: nat, minPayout: int)
    requires Inv(v) && SolventIn(v, token)
    ensures FlushToken(v, merchant, token, minPayout) != Err(HostTrap)
  {
    hide Inv, SolventIn;
    PartsCovered(v, token);
  }

  lemma FlushNeverTraps(v: Vault, merchant: nat)
    requires Inv(v) && Solvent(v)
    ensures FlushPayouts(v, merchant) != Err(HostTrap)
  {
    hide Inv, Solvent, FlushTokens;
    var tokens := Ledger.TokensOf(v.ledger, merchant);
    FlushTokensSolvent(v, merchant, tokens, ScheduleOf(v, merchant).minPayout, |tokens|);
  }

  /** No item of the batch leaves anything behind. */
  ghost predicate LeakFree(v: Vault, ids: seq<nat>, keys: Option<seq<nat>>, admin: Option<Admin>, cache: Option<Cache>, n: nat)
    requires n <= |ids|
  {
    forall k, t :: 0 <= k <= n ==> BatchLeak(v, ids, keys, admin, cache, k, t) == 0
  }

  lemma {:induction false} LeakFreeSolvent(v: Vault, ids: seq<nat>, keys: Option<seq<nat>>, admin: Option<Admin>, cache: Option<Cache>, n: nat)
    requires n <= |ids| && Inv(v) && Solvent(v) && LeakFree(v, ids, keys, admin, cache, n)
    ensures !BatchRun(v, ids, keys, admin, cache, n).trapped
    ensures Solvent(BatchRun(v, ids, keys, admin, cache, n).vault)
  {
    hide Inv, ChargeOne, ItemLeak, SolventIn, BatchLeak;
    forall t ensures SolventIn(BatchRun(v, ids, keys, admin, cache, n).vault, t) {
      assert SolventIn(v, t);
      assert BatchLeak(v, ids, keys, admin, cache, n, t) == 0;
      BatchKeepsSolvency(v, ids, keys, admin, cache, n, t);
    }
    if n > 0 {
      LeakFreeSolvent(v, ids, keys, admin, cache, n - 1);
      BatchRunInv(v, ids, keys, admin, cache, n - 1);
      var b := BatchRun(v, ids, keys, admin, cache, n - 1);
      SolventCoversPrepaid(b.vault);
      ChargeNeverTraps(b.vault, ids[n - 1], KeyAt(keys, n - 1), admin, b.cache);
    }
  }

  lemma BatchKeepsSolvency(v: Vault, ids: seq<nat>, keys: Option<seq<nat>>, admin: Option<Admin>, cache: Option<Cache>, n: nat, t: nat)
    requires n <= |ids| && Inv(v) && SolventIn(v, t) && BatchLeak(v, ids, keys, admin, cache, n, t) == 0
    ensures SolventIn(BatchRun(v, ids, keys, admin, cache, n).vault, t)
  {
    hide Inv, Surplus, BatchRun, BatchLeak;
    BatchRunPays(v, ids, keys, admin, cache, n);
    BatchRunSurplus(v, ids, keys, admin, cache, n, t);
  }

  // ----- Every other call -----

  lemma HeldFits(v: Vault, op: Op, t: nat)
    requires Inv(v) && Held(v, t) <= I128_MAX
    ensures Held(Step(v, op), t) <= I128_MAX
  {
    hide Inv, Step, Quiet;
    StepFrame(v, op);
  }

  /** Only a batch can cost the contract its solvency. */
  lemma StepSolvent(v: Vault, op: Op)
    requires Inv(v) && Solvent(v) && !op.Batch?
    ensures Solvent(Step(v, op))
  {
    hide Inv, Step, Surplus, Gain;
    forall t ensures SolventIn(Step(v, op), t) {
      assert SolventIn(v, t);
      HeldFits(v, op, t);
      StepSurplus(v, op, t);
      GainNonNegative(v, op, t);
    }
  }

  lemma GainNonNegative(v: Vault, op: Op, t: nat)
    requires Inv(v) && !op.Batch?
    ensures Gain(v, op, t) >= 0
  {
    hide AccountsOk, DisputesOk, EscrowsOk, ConfigOk, CouponsOk, RotateMerchant;
  }
}
