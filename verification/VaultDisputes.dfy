/** The life of a dispute over whole runs. */
module VaultDisputes {
  import opened Base
  import opened Vault
  import opened VaultInvariant
  import opened VaultFrames
  import opened VaultRuns
  import Ledger

  /** What changes hands for a dispute between two states: the rise of the merchant's balance
      plus the tokens that leave the contract. */
  function Moved(v: Vault, v': Vault, d: nat): int
    requires d in v.disputes.records && v.disputes.records[d].subscription in v.accounts
  {
    var token, merchant := v.accounts[v.disputes.records[d].subscription].sub.token, v.disputes.records[d].merchant;
    Ledger.BalanceOf(v'.ledger, merchant, token) - Ledger.BalanceOf(v.ledger, merchant, token) + Held(v, token) - Held(v', token)
  }

  /** What is still in escrow for a dispute. */
  function Outstanding(ds: Disputes, d: nat): int {
    if d in ds.escrow then ds.escrow[d].original - ds.escrow[d].disbursed else 0
  }

  /** What a call takes out of a dispute's escrow. */
  function HandedOut(v: Vault, op: Op, d: nat): int { Outstanding(v.disputes, d) - Outstanding(Step(v, op).disputes, d) }

  /** The dispute is resolved between the two states. */
  predicate Resolves(ds: Disputes, ds': Disputes, d: nat) {
    d in ds.records && d in ds'.records && !Resolved(ds.records[d].status) && Resolved(ds'.records[d].status)
  }

  /** The escrow gives out everything when the dispute is resolved and nothing otherwise. */
  predicate Releases(ds: Disputes, ds': Disputes, d: nat)
    requires d in ds.records
  {
    Outstanding(ds, d) - Outstanding(ds', d) == (if Resolves(ds, ds', d) then ds.records[d].amount else 0)
  }

  /** Who wins: the merchant if it has answered and the administrator rules for it, the subscriber
      otherwise. */
  function Winner(d: Dispute, toSubscriber: bool): DisputeStatus {
    if d.status == Responded && !toSubscriber then ResolvedToMerchant else ResolvedToSubscriber
  }

  /** The whole amount goes to the winner: to the merchant's balance, or as tokens to the subscriber. */
  predicate PaidToWinner(v: Vault, v': Vault, d: nat, toSubscriber: bool)
    requires d in v.disputes.records && v.disputes.records[d].subscription in v.accounts
  {
    var r := v.disputes.records[d];
    var token := v.accounts[r.subscription].sub.token;
    if Winner(r, toSubscriber) == ResolvedToMerchant then
      && v'.held == v.held
      && Ledger.BalanceOf(v'.ledger, r.merchant, token) == Ledger.BalanceOf(v.ledger, r.merchant, token) + r.amount
      && v'.ledger == v.ledger.(balance := v'.ledger.balance)
    else
      && v'.ledger == v.ledger
      && Held(v', token) == Held(v, token) - r.amount
  }

  /** A resolution hands the whole amount to exactly one party: to the merchant if and only if the
      dispute was answered and the ruling is for the merchant. Nothing but the record, its escrow and
      its entry in the index changes besides. */
  lemma ResolvePaysOneParty(v: Vault, d: nat, toSubscriber: bool)
    requires Inv(v) && ResolveDispute(v, d, toSubscriber).Ok?
    ensures d in v.disputes.records && v.disputes.records[d].subscription in v.accounts
    ensures var v', before := ResolveDispute(v, d, toSubscriber).value, v.disputes.records[d];
            && !Resolved(before.status)
            && d in v'.disputes.records && v'.disputes.records[d] == before.(status := Winner(before, toSubscriber))
            && v'.disputes == Disputes(v.disputes.records[d := v'.disputes.records[d]], v.disputes.escrow - {d}, v.disputes.active - {before.subscription}, v.disputes.nextId)
            && PaidToWinner(v, v', d, toSubscriber)
            && v' == v.(disputes := v'.disputes, ledger := v'.ledger, held := v'.held)
            && (before.status == Open ==> SaturatingSub(v.now, before.openedAt) >= v.cfg.disputeWindow)
            && Moved(v, v', d) == before.amount
  {
    hide AccountsOk, EscrowsOk, CouponsOk, LedgerOk, DisputesOk;
    EscrowIsAmount(v, d);
  }

  /** An unresolved dispute can be resolved exactly when it was answered or its window has passed
      (given room in the merchant's balance and cover for the payout). */
  lemma ResolvableIff(v: Vault, d: nat, toSubscriber: bool)
    requires Inv(v) && d in v.disputes.escrow
    requires var r := v.disputes.records[d]; r.subscription in v.accounts ==>
               var token := v.accounts[r.subscription].sub.token;
               r.amount <= Held(v, token) && Ledger.BalanceOf(v.ledger, r.merchant, token) + r.amount <= I128_MAX
    ensures ResolveDispute(v, d, toSubscriber).Ok?
       <==> v.disputes.records[d].status == Responded || SaturatingSub(v.now, v.disputes.records[d].openedAt) >= v.cfg.disputeWindow
  {
    hide AccountsOk, EscrowsOk, CouponsOk;
  }

  function Opened(d: Dispute): Dispute { d.(status := Open, respondedAt := None) }

  /** Answered disputes carry the time of their answer. */
  ghost predicate Answered(ds: Disputes) {
    forall d :: d in ds.records && ds.records[d].status in {Responded, ResolvedToMerchant} ==> ds.records[d].respondedAt.Some?
  }

  /** A dispute keeps its terms, a resolved one everything, and answers stay recorded. */
  ghost predicate Follows(ds: Disputes, ds': Disputes, d: nat) {
    && (d in ds.records ==> d in ds'.records && Opened(ds'.records[d]) == Opened(ds.records[d]))
    && (d in ds.records && Resolved(ds.records[d].status) ==> ds'.records[d] == ds.records[d])
    && (Answered(ds) ==> Answered(ds'))
  }

  lemma ResolveFollows(v: Vault, e: nat, toSubscriber: bool, d: nat)
    requires Inv(v) && d in v.disputes.records
    ensures var v' := Kept(v, ResolveDispute(v, e, toSubscriber));
            && Follows(v.disputes, v'.disputes, d)
            && Releases(v.disputes, v'.disputes, d)
            && v.disputes.records[d].subscription in v.accounts
            && (Resolves(v.disputes, v'.disputes, d) ==> d == e && Moved(v, v', d) == v.disputes.records[d].amount)
  {
    hide AccountsOk, EscrowsOk, CouponsOk, LedgerOk, Resolution;
    if ResolveDispute(v, e, toSubscriber).Ok? { ResolvePaysOneParty(v, e, toSubscriber); }
  }

  lemma RespondFollows(v: Vault, e: nat, d: nat)
    requires d in v.disputes.records
    ensures var v' := Kept(v, RespondDispute(v, e));
            Follows(v.disputes, v'.disputes, d) && Releases(v.disputes, v'.disputes, d) && !Resolves(v.disputes, v'.disputes, d)
  {}

  lemma RecordFollows(v: Vault, x: Dispute, d: nat)
    requires DisputesOk(v.disputes, v.accounts) && d in v.disputes.records && x.status == Open
    ensures var ds := OpenRecord(v, x).disputes; Follows(v.disputes, ds, d) && Releases(v.disputes, ds, d) && !Resolves(v.disputes, ds, d)
  {}

  lemma OpenFollows(v: Vault, caller: nat, id: nat, amount: int, d: nat)
    requires Inv(v) && d in v.disputes.records
    ensures var ds := KeptFirst(v, OpenDispute(v, caller, id, amount)).disputes; Follows(v.disputes, ds, d) && Releases(v.disputes, ds, d) && !Resolves(v.disputes, ds, d)
  {
    hide DisputesOk, AccountsOk, EscrowsOk, CouponsOk, LedgerOk, Answered, OpenRecord, Ledger.SetBalance;
    if OpenDispute(v, caller, id, amount).Ok? {
      var s := v.accounts[id].sub;
      var l := Ledger.SetBalance(v.ledger, s.merchant, s.token, Ledger.BalanceOf(v.ledger, s.merchant, s.token) - amount);
      RecordFollows(v.(ledger := l), Dispute(id, caller, s.merchant, amount, v.now, Open, None), d);
    }
  }

  lemma LodgeFollows(v: Vault, caller: nat, id: nat, d: nat)
    requires Inv(v) && d in v.disputes.records
    ensures var ds := KeptFirst(v, LodgeEscrowDispute(v, caller, id)).disputes; Follows(v.disputes, ds, d) && Releases(v.disputes, ds, d) && !Resolves(v.disputes, ds, d)
  {
    hide DisputesOk, AccountsOk, EscrowsOk, CouponsOk, LedgerOk, Answered, OpenRecord;
    if LodgeEscrowDispute(v, caller, id).Ok? {
      var e := v.escrows[id];
      RecordFollows(v.(escrows := v.escrows - {id}), Dispute(id, e.subscriber, e.merchant, e.amount, v.now, Open, None), d);
    }
  }

  lemma DisputeCallFollows(v: Vault, op: Op, d: nat)
    requires Inv(v) && d in v.disputes.records && IsDisputeCall(op)
    ensures var before, ds := v.disputes.records[d], DisputeStep(v, op).disputes;
            && Follows(v.disputes, ds, d)
            && Releases(v.disputes, ds, d)
            && (Resolves(v.disputes, ds, d) ==>
                  && op.Resolve? && op.disputeId == d && before.subscription in v.accounts
                  && Moved(v, DisputeStep(v, op), d) == before.amount)
  {
    hide Inv, Kept, KeptFirst, Moved, Follows, Releases, Resolves, OpenDispute, RespondDispute, ResolveDispute, LodgeEscrowDispute;
    match op {
      case Resolve(e, toSubscriber) => ResolveFollows(v, e, toSubscriber, d);
      case Respond(e) => RespondFollows(v, e, d);
      case RaiseDispute(caller, id, amount) => OpenFollows(v, caller, id, amount, d);
      case Lodge(caller, id) => LodgeFollows(v, caller, id, d);
    }
  }

  /** One call: a dispute keeps its terms; once resolved it never changes; its escrow stays as it
      is except in the call that resolves it, which empties it; and exactly the amount taken out
      reaches the merchant's balance or leaves the contract. */
  lemma StepDispute(v: Vault, op: Op, d: nat)
    requires Inv(v) && d in v.disputes.records
    ensures var before, ds := v.disputes.records[d], Step(v, op).disputes;
            && Follows(v.disputes, ds, d)
            && HandedOut(v, op, d) == (if !Resolved(before.status) && Resolved(ds.records[d].status) then before.amount else 0)
            && (HandedOut(v, op, d) != 0 ==>
                  && op.Resolve? && op.disputeId == d && before.subscription in v.accounts
                  && Moved(v, Step(v, op), d) == HandedOut(v, op, d))
  {
    hide Inv, Moved, Answered, ChargeStep, SettingStep, DisputeStep, MerchantStep, CouponStep, SubscriptionStep;
    if IsDisputeCall(op) { DisputeCallFollows(v, op, d); } else { StepFrame(v, op); }
  }

  function TotalHandedOut(v: Vault, ops: seq<Op>, d: nat): int {
    if ops == [] then 0
    else TotalHandedOut(v, ops[..|ops| - 1], d) + HandedOut(Run(v, ops[..|ops| - 1]), ops[|ops| - 1], d)
  }

  /** Over any run: terms never change, a resolution is final, the full amount is handed out
      exactly once if the run resolves the dispute and nothing otherwise, and a dispute nobody
      answered has not gone to the merchant. */
  lemma {:induction false} DisputeHistory(v: Vault, ops: seq<Op>, d: nat)
    requires Inv(v) && Answered(v.disputes) && IdsLast(v, ops) && d in v.disputes.records
    ensures var before, after := v.disputes.records[d], Run(v, ops).disputes.records;
            && d in after && Opened(after[d]) == Opened(before)
            && (Resolved(before.status) ==> after[d] == before)
            && TotalHandedOut(v, ops, d) == (if !Resolved(before.status) && Resolved(after[d].status) then before.amount else 0)
            && (after[d].respondedAt.None? ==> after[d].status != ResolvedToMerchant)
    ensures Answered(Run(v, ops).disputes)
  {
    hide Inv, Step, HandedOut;
    if ops != [] {
      var n := |ops| - 1;
      DisputeHistory(v, ops[..n], d);
      RunInv(v, ops[..n]);
      StepDispute(Run(v, ops[..n]), ops[n], d);
    }
  }

  lemma RulingStep(v: Vault, op: Op, d: nat)
    requires Inv(v) && d in v.disputes.records && !Resolved(v.disputes.records[d].status)
    requires d in Step(v, op).disputes.records && Resolved(Step(v, op).disputes.records[d].status)
    ensures op.Resolve? && op.disputeId == d && v.disputes.records[d].subscription in v.accounts
    ensures var r := v.disputes.records[d];
            && Step(v, op).disputes.records[d] == r.(status := Winner(r, op.toSubscriber))
            && PaidToWinner(v, Step(v, op), d, op.toSubscriber)
            && (r.status == Open ==> SaturatingSub(v.now, r.openedAt) >= v.cfg.disputeWindow)
  {
    hide Inv, Winner, PaidToWinner, Moved, ResolveDispute, SettingStep, MerchantStep, ChargeStep, CouponStep, SubscriptionStep;
    StepDispute(v, op, d);
    DisputeCallIsResolve(v, op, d);
    ResolvePaysOneParty(v, d, op.toSubscriber);
  }

  lemma DisputeCallIsResolve(v: Vault, op: Op, d: nat)
    requires Inv(v) && d in v.disputes.records && !Resolved(v.disputes.records[d].status)
    requires d in Step(v, op).disputes.records && Resolved(Step(v, op).disputes.records[d].status)
    ensures op.Resolve? && op.disputeId == d && ResolveDispute(v, d, op.toSubscriber).Ok? && Step(v, op) == ResolveDispute(v, d, op.toSubscriber).value
  {
    hide Inv, Moved, ResolveDispute, OpenDispute, RespondDispute, LodgeEscrowDispute, SettingStep, MerchantStep, ChargeStep, CouponStep, SubscriptionStep;
    if IsDisputeCall(op) { DisputeCallFollows(v, op, d); } else { StepFrame(v, op); }
  }

  /** A dispute that a run resolves was resolved by one call: the administrator's ruling in that call
      and the merchant's answer before it decide the winner, who is paid in that call, and without an
      answer its window had passed. The outcome stays to the end of the run. */
  lemma {:induction false} RulingDecides(v: Vault, ops: seq<Op>, d: nat) returns (k: nat)
    requires Inv(v) && Answered(v.disputes) && IdsLast(v, ops) && d in v.disputes.records && !Resolved(v.disputes.records[d].status)
    requires d in Run(v, ops).disputes.records && Resolved(Run(v, ops).disputes.records[d].status)
    ensures k < |ops| && ops[k].Resolve? && ops[k].disputeId == d
    ensures var w := Run(v, ops[..k]);
            && d in w.disputes.records && w.disputes.records[d].subscription in w.accounts
            && var r := w.disputes.records[d];
               && !Resolved(r.status)
               && (r.status == Open ==> SaturatingSub(w.now, r.openedAt) >= w.cfg.disputeWindow)
               && PaidToWinner(w, Step(w, ops[k]), d, ops[k].toSubscriber)
               && Run(v, ops).disputes.records[d] == r.(status := Winner(r, ops[k].toSubscriber))
  {
    hide Inv, Step, Answered, Winner, PaidToWinner;
    k := 0;
    if ops != [] {
      var n := |ops| - 1;
      DisputeHistory(v, ops[..n], d);
      RunInv(v, ops[..n]);
      if Resolved(Run(v, ops[..n]).disputes.records[d].status) {
        k := RulingDecides(v, ops[..n], d);
        assert ops[..n][..k] == ops[..k];
        StepDispute(Run(v, ops[..n]), ops[n], d);
      } else {
        k := n;
        RulingStep(Run(v, ops[..n]), ops[n], d);
      }
    }
  }

  /** In every reachable state the index names exactly the unresolved disputes: at most one for
      each subscription, each with its whole positive amount in escrow. */
  lemma EscrowIffUnresolved(v: Vault, ops: seq<Op>, d: nat)
    requires Inv(v) && IdsLast(v, ops)
    ensures var ds := Run(v, ops).disputes;
            && (d in ds.escrow <==> d in ds.records && !Resolved(ds.records[d].status))
            && (d in ds.escrow ==> ds.escrow[d] == Escrow(ds.records[d].amount, 0) && ds.records[d].amount > 0)
            && (d in ds.escrow <==> d in ds.records && ds.records[d].subscription in ds.active && ds.active[ds.records[d].subscription] == d)
  {
    RunInv(v, ops);
    hide Run, AccountsOk, EscrowsOk, CouponsOk, LedgerOk;
  }
}
