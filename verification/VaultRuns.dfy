/** Whole runs: the invariant, what is held beyond what is owed, and billing, after any sequence of
    calls, in any order and with any arguments. */
module VaultRuns {
  import opened Base
  import opened StateMachine
  import opened Accounts
  import opened AccountLaws
  import opened Vault
  import opened VaultTotals
  import opened VaultInvariant
  import opened VaultFrames
  import opened VaultConservation
  import StatementLog
  import Ledger

  /** A newly deployed contract. */
  function Initial(cfg: Config, now: nat, ledgerSeq: nat): Vault {
    Vault(now, ledgerSeq, cfg, map[], 0, Ledger.Ledger(map[], map[], map[]), Disputes(map[], map[], map[], 0), map[],
          Merchants({}, map[], map[]), map[], map[])
  }

  /** It satisfies the invariant, owes nothing and holds nothing. */
  lemma InitialInv(cfg: Config, now: nat, ledgerSeq: nat, t: nat)
    requires ConfigOk(cfg) && now <= U64_MAX
    ensures Inv(Initial(cfg, now, ledgerSeq)) && Held(Initial(cfg, now, ledgerSeq), t) == 0 && Surplus(Initial(cfg, now, ledgerSeq), t) == 0
  {
    var v := Initial(cfg, now, ledgerSeq);
    assert PrepaidMap(v.accounts, t) == map[] && Ledger.BalanceMap(v.ledger, t) == map[];
    assert EscrowMap(v.disputes, v.accounts, t) == map[] && CancelMap(v.escrows, t) == map[];
    forall code ensures CouponOk(v.accounts, v.redemptions, v.cfg.coupons, code) {
      assert BoundTo(v.accounts, code) == map[];
    }
  }

  /** The calls of a run that may use up a dispute id. */
  function Openings(ops: seq<Op>): nat {
    if ops == [] then 0
    else Openings(ops[..|ops| - 1]) + (if ops[|ops| - 1].RaiseDispute? || ops[|ops| - 1].Lodge? then 1 else 0)
  }

  /** Dispute ids are u64 and wrap around to 0; a run that opens no more disputes than there are
      ids left never reuses one. */
  predicate IdsLast(v: Vault, ops: seq<Op>) { v.disputes.nextId + Openings(ops) <= U64_MAX }

  lemma {:induction false} RunInv(v: Vault, ops: seq<Op>)
    requires Inv(v) && IdsLast(v, ops)
    ensures Inv(Run(v, ops)) && Run(v, ops).disputes.nextId <= v.disputes.nextId + Openings(ops)
  {
    hide Inv, Step;
    if ops != [] {
      var n := |ops| - 1;
      RunInv(v, ops[..n]);
      StepInv(Run(v, ops[..n]), ops[n]);
      StepFrame(Run(v, ops[..n]), ops[n]);
    }
  }

  // ----- Conservation -----

  function TotalGain(v: Vault, ops: seq<Op>, t: nat): int {
    if ops == [] then 0 else TotalGain(v, ops[..|ops| - 1], t) + Gain(Run(v, ops[..|ops| - 1]), ops[|ops| - 1], t)
  }

  /** Tokens held minus everything owed moves by exactly the sum of the calls' gains. */
  lemma {:induction false} RunSurplus(v: Vault, ops: seq<Op>, t: nat)
    requires Inv(v) && IdsLast(v, ops)
    ensures Surplus(Run(v, ops), t) == Surplus(v, t) + TotalGain(v, ops, t)
  {
    hide Inv, Step, Surplus, Gain;
    if ops != [] {
      var n := |ops| - 1;
      RunSurplus(v, ops[..n], t);
      RunInv(v, ops[..n]);
      StepSurplus(Run(v, ops[..n]), ops[n], t);
    }
  }

  predicate RotatesOntoItself(op: Op) { op.Rotate? && op.oldAddr == op.newAddr }

  predicate NoSelfRotation(ops: seq<Op>) { forall i :: 0 <= i < |ops| ==> !RotatesOntoItself(ops[i]) }

  lemma {:induction false} NoGain(v: Vault, ops: seq<Op>, t: nat)
    requires NoSelfRotation(ops) && forall i :: 0 <= i < |ops| ==> !ops[i].Batch?
    ensures TotalGain(v, ops, t) == 0
  {
    hide Run;
    if ops != [] { NoGain(v, ops[..|ops| - 1], t); }
  }

  // ----- Billing -----

  /** In every reachable state, for every subscription: statements kept plus the compacted total
      are the lifetime total, which is within the cap, and a reached cap has ended it. */
  lemma RunBilling(v: Vault, ops: seq<Op>, id: nat)
    requires Inv(v) && IdsLast(v, ops) && id in Run(v, ops).accounts
    ensures var a := Run(v, ops).accounts[id];
            && (a.log.lastSeq < U32_MAX ==> StatementLog.Billed(a.log) == a.sub.lifetimeCharged)
            && (a.sub.lifetimeCap.Some? ==> a.sub.lifetimeCharged <= a.sub.lifetimeCap.value)
            && (a.sub.lifetimeCap.Some? && a.sub.lifetimeCharged == a.sub.lifetimeCap.value ==> a.sub.status == Cancelled || a.sub.status == Archived)
  {
    hide Inv, StatementLog.Billed;
    RunInv(v, ops);
    Known(Run(v, ops), id);
    BilledIsLifetime(Run(v, ops).accounts[id], Run(v, ops).now);
  }
}
