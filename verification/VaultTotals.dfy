/** What the contract owes in each token, what it holds beyond that, and how the building blocks
    of the operations move the difference. */
module VaultTotals {
  import opened Accounts
  import opened Vault
  import opened Sums
  import Ledger

  ghost function PrepaidMap(accounts: map<nat, Account>, t: nat): map<nat, int> {
    map id | id in accounts && accounts[id].sub.token == t :: accounts[id].sub.prepaid
  }

  /** The token of a dispute is that of its subscription. */
  ghost function EscrowMap(ds: Disputes, accounts: map<nat, Account>, t: nat): map<nat, int> {
    map d | d in ds.escrow && d in ds.records && ds.records[d].subscription in accounts
            && accounts[ds.records[d].subscription].sub.token == t :: ds.escrow[d].original - ds.escrow[d].disbursed
  }

  ghost function CancelMap(escrows: map<nat, CancelEscrow>, t: nat): map<nat, int> {
    map id | id in escrows && escrows[id].token == t :: escrows[id].amount
  }

  ghost function Prepaid(accounts: map<nat, Account>, t: nat): int { Sum(PrepaidMap(accounts, t)) }

  ghost function Disputed(ds: Disputes, accounts: map<nat, Account>, t: nat): int { Sum(EscrowMap(ds, accounts, t)) }

  ghost function Cancelling(escrows: map<nat, CancelEscrow>, t: nat): int { Sum(CancelMap(escrows, t)) }

  /** Prepaid balances, merchant and treasury balances, dispute escrows, cancellation escrows. */
  ghost function Liabilities(v: Vault, t: nat): int {
    Prepaid(v.accounts, t) + Ledger.BalanceTotal(v.ledger, t) + Disputed(v.disputes, v.accounts, t) + Cancelling(v.escrows, t)
  }

  /** Tokens held beyond what is owed. */
  ghost function Surplus(v: Vault, t: nat): int { Held(v, t) - Liabilities(v, t) }

  /** Every dispute refers to an existing subscription. */
  ghost predicate Linked(ds: Disputes, accounts: map<nat, Account>) {
    forall d :: d in ds.records ==> ds.records[d].subscription in accounts
  }

  // ----- Building blocks -----

  lemma SetAccountSurplus(v: Vault, id: nat, a: Account, t: nat)
    requires id in v.accounts && a.sub.token == v.accounts[id].sub.token
    ensures Surplus(SetAccount(v, id, a), t)
         == Surplus(v, t) - (if a.sub.token == t then a.sub.prepaid - v.accounts[id].sub.prepaid else 0)
  {
    var accounts' := v.accounts[id := a];
    assert EscrowMap(v.disputes, accounts', t) == EscrowMap(v.disputes, v.accounts, t);
    if a.sub.token == t {
      assert PrepaidMap(accounts', t) == PrepaidMap(v.accounts, t)[id := a.sub.prepaid];
      SumUpdate(PrepaidMap(v.accounts, t), id, a.sub.prepaid);
    } else {
      assert PrepaidMap(accounts', t) == PrepaidMap(v.accounts, t);
    }
  }

  lemma SetAccountPrepaid(accounts: map<nat, Account>, id: nat, a: Account, t: nat)
    requires id in accounts && a.sub.token == accounts[id].sub.token
    ensures Prepaid(accounts[id := a], t) == Prepaid(accounts, t) + (if a.sub.token == t then a.sub.prepaid - accounts[id].sub.prepaid else 0)
  {
    var accounts' := accounts[id := a];
    if a.sub.token == t {
      assert PrepaidMap(accounts', t) == PrepaidMap(accounts, t)[id := a.sub.prepaid];
      SumUpdate(PrepaidMap(accounts, t), id, a.sub.prepaid);
    } else {
      assert PrepaidMap(accounts', t) == PrepaidMap(accounts, t);
    }
  }

  lemma NewAccountSurplus(v: Vault, id: nat, a: Account, t: nat)
    requires id !in v.accounts && Linked(v.disputes, v.accounts)
    ensures Surplus(SetAccount(v, id, a), t) == Surplus(v, t) - (if a.sub.token == t then a.sub.prepaid else 0)
  {
    var accounts' := v.accounts[id := a];
    assert EscrowMap(v.disputes, accounts', t) == EscrowMap(v.disputes, v.accounts, t);
    if a.sub.token == t {
      assert PrepaidMap(accounts', t) == PrepaidMap(v.accounts, t)[id := a.sub.prepaid];
      SumUpdate(PrepaidMap(v.accounts, t), id, a.sub.prepaid);
    } else {
      assert PrepaidMap(accounts', t) == PrepaidMap(v.accounts, t);
    }
  }

  lemma PaySurplus(v: Vault, token: nat, amount: int, t: nat)
    requires Pay(v, token, amount).Ok?
    ensures Surplus(Pay(v, token, amount).value, t) == Surplus(v, t) - (if t == token then amount else 0)
  {}

  lemma ReceiveSurplus(v: Vault, token: nat, amount: int, t: nat)
    requires Receive(v, token, amount).Ok?
    ensures Surplus(Receive(v, token, amount).value, t) == Surplus(v, t) + (if t == token then amount else 0)
  {}

  lemma LedgerSurplus(v: Vault, l: Ledger.Ledger, t: nat)
    ensures Surplus(v.(ledger := l), t) == Surplus(v, t) - (Ledger.BalanceTotal(l, t) - Ledger.BalanceTotal(v.ledger, t))
  {}

  /** Fields no total reads. */
  lemma FrameSurplus(v: Vault, v': Vault, t: nat)
    requires v' == v.(now := v'.now, ledgerSeq := v'.ledgerSeq, cfg := v'.cfg, nextSub := v'.nextSub,
                      merchants := v'.merchants, redemptions := v'.redemptions)
    ensures Surplus(v', t) == Surplus(v, t)
  {}

  lemma DropEscrowSurplus(v: Vault, id: nat, t: nat)
    requires id in v.escrows
    ensures Surplus(v.(escrows := v.escrows - {id}), t)
         == Surplus(v, t) + (if v.escrows[id].token == t then v.escrows[id].amount else 0)
  {
    assert CancelMap(v.escrows - {id}, t) == CancelMap(v.escrows, t) - {id};
    SumRemove(CancelMap(v.escrows, t), id);
  }

  lemma OpenRecordSurplus(v: Vault, d: Dispute, t: nat)
    requires d.subscription in v.accounts
    requires v.disputes.nextId !in v.disputes.records && v.disputes.nextId !in v.disputes.escrow
    ensures Surplus(OpenRecord(v, d), t)
         == Surplus(v, t) - (if v.accounts[d.subscription].sub.token == t then d.amount else 0)
  {
    var id, before, after := v.disputes.nextId, v.disputes, OpenRecord(v, d).disputes;
    if v.accounts[d.subscription].sub.token == t {
      assert EscrowMap(after, v.accounts, t) == EscrowMap(before, v.accounts, t)[id := d.amount];
      SumUpdate(EscrowMap(before, v.accounts, t), id, d.amount);
    } else {
      assert EscrowMap(after, v.accounts, t) == EscrowMap(before, v.accounts, t);
    }
  }

  /** Once the id counter has wrapped around to the id of an unresolved dispute, opening another
      overwrites its record and the contract forgets what it owes for it. */
  lemma ReusedIdForgetsEscrow(v: Vault, d: Dispute, t: nat)
    requires d.subscription in v.accounts && v.disputes.nextId in v.disputes.records && v.disputes.nextId in v.disputes.escrow
    requires var lost := v.disputes.records[v.disputes.nextId].subscription; lost in v.accounts && v.accounts[lost].sub.token == t
    requires v.accounts[d.subscription].sub.token == t
    ensures var lost := v.disputes.escrow[v.disputes.nextId];
            Surplus(OpenRecord(v, d), t) == Surplus(v, t) - d.amount + (lost.original - lost.disbursed)
  {
    var id, before, after := v.disputes.nextId, v.disputes, OpenRecord(v, d).disputes;
    assert EscrowMap(after, v.accounts, t) == EscrowMap(before, v.accounts, t)[id := d.amount];
    SumUpdate(EscrowMap(before, v.accounts, t), id, d.amount);
  }

  /** Closing a dispute releases its escrow; changing only its status does not. */
  lemma CloseRecordSurplus(v: Vault, id: nat, d: Dispute, active: map<nat, nat>, t: nat)
    requires id in v.disputes.records && id in v.disputes.escrow && d.subscription in v.accounts
    requires d.subscription == v.disputes.records[id].subscription
    ensures Surplus(v.(disputes := Disputes(v.disputes.records[id := d], v.disputes.escrow - {id}, active, v.disputes.nextId)), t)
         == Surplus(v, t) + (if v.accounts[d.subscription].sub.token == t then v.disputes.escrow[id].original - v.disputes.escrow[id].disbursed else 0)
  {
    var ds := Disputes(v.disputes.records[id := d], v.disputes.escrow - {id}, active, v.disputes.nextId);
    assert EscrowMap(ds, v.accounts, t) == EscrowMap(v.disputes, v.accounts, t) - {id};
    SumRemove(EscrowMap(v.disputes, v.accounts, t), id);
  }

  lemma RestatusSurplus(v: Vault, id: nat, d: Dispute, t: nat)
    requires id in v.disputes.records && d.subscription == v.disputes.records[id].subscription
    ensures Surplus(v.(disputes := v.disputes.(records := v.disputes.records[id := d])), t) == Surplus(v, t)
  {
    hide Prepaid, Ledger.BalanceTotal, Cancelling;
    var ds := v.disputes.(records := v.disputes.records[id := d]);
    assert EscrowMap(ds, v.accounts, t) == EscrowMap(v.disputes, v.accounts, t);
  }

  lemma ReaddressSurplus(v: Vault, ids: seq<nat>, oldAddr: nat, newAddr: nat, t: nat)
    ensures Surplus(v.(accounts := Readdress(v.accounts, ids, oldAddr, newAddr)), t) == Surplus(v, t)
  {
    var accounts' := Readdress(v.accounts, ids, oldAddr, newAddr);
    assert PrepaidMap(accounts', t) == PrepaidMap(v.accounts, t);
    assert EscrowMap(v.disputes, accounts', t) == EscrowMap(v.disputes, v.accounts, t);
  }

  // ----- Each part of the liabilities is at most the whole -----

  ghost predicate PartsNonNegative(v: Vault) {
    && (forall id :: id in v.accounts ==> v.accounts[id].sub.prepaid >= 0)
    && Ledger.NonNegative(v.ledger)
    && (forall d :: d in v.disputes.escrow ==> v.disputes.escrow[d].original >= v.disputes.escrow[d].disbursed)
    && (forall id :: id in v.escrows ==> v.escrows[id].amount >= 0)
  }

  lemma PartsBelowLiabilities(v: Vault, t: nat)
    requires PartsNonNegative(v)
    ensures 0 <= Prepaid(v.accounts, t) && 0 <= Ledger.BalanceTotal(v.ledger, t) && 0 <= Disputed(v.disputes, v.accounts, t) && 0 <= Cancelling(v.escrows, t)
    ensures forall id :: id in v.accounts && v.accounts[id].sub.token == t ==> v.accounts[id].sub.prepaid <= Prepaid(v.accounts, t)
    ensures forall d :: d in EscrowMap(v.disputes, v.accounts, t) ==> v.disputes.escrow[d].original - v.disputes.escrow[d].disbursed <= Disputed(v.disputes, v.accounts, t)
    ensures forall id :: id in v.escrows && v.escrows[id].token == t ==> v.escrows[id].amount <= Cancelling(v.escrows, t)
  {
    SumBounds(PrepaidMap(v.accounts, t));
    SumBounds(Ledger.BalanceMap(v.ledger, t));
    SumBounds(EscrowMap(v.disputes, v.accounts, t));
    SumBounds(CancelMap(v.escrows, t));
    forall id | id in v.accounts && v.accounts[id].sub.token == t
      ensures v.accounts[id].sub.prepaid <= Prepaid(v.accounts, t)
    {
      assert id in PrepaidMap(v.accounts, t);
    }
    forall id | id in v.escrows && v.escrows[id].token == t
      ensures v.escrows[id].amount <= Cancelling(v.escrows, t)
    {
      assert id in CancelMap(v.escrows, t);
    }
  }
}
