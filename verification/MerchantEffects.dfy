/** What a merchant's own calls do: rotation of its address, payouts, refunds, settings. */
module MerchantEffects {
  import opened Base
  import opened StateMachine
  import opened Accounts
  import opened AccountLaws
  import opened Vault
  import opened VaultInvariant
  import opened VaultFrames
  import opened VaultRuns
  import opened VaultTraces
  import opened ChargeEffects
  import C = VaultConservation
  import Ledger
  import StatementLog
  import UsageMeter

  // ----- Rotation: lists -----

  function ListAt(lists: map<nat, seq<nat>>, who: nat): seq<nat> { if who in lists then lists[who] else [] }

  /** The positions in a list, in order, at which the given elements are found. */
  predicate FoundAt(more: seq<nat>, picked: seq<nat>, at: seq<nat>) {
    && |at| == |picked|
    && (forall i :: 0 <= i < |at| ==> at[i] < |more| && more[at[i]] == picked[i])
    && (forall i, j :: 0 <= i < j < |at| ==> at[i] < at[j])
  }

  /** A list joined to another: the other as it is, then, in order and once each, what it lacks. */
  ghost predicate Joined(base: seq<nat>, more: seq<nat>, r: seq<nat>) {
    && |base| <= |r| && r[..|base|] == base
    && (forall x :: x in r <==> x in base || x in more)
    && (forall i, j :: 0 <= i < j < |r| && |base| <= j ==> r[i] != r[j])
    && exists at: seq<nat> :: FoundAt(more, r[|base|..], at)
  }

  lemma {:induction false} MergedIsJoined(base: seq<nat>, more: seq<nat>, n: nat)
    requires n <= |more|
    ensures Joined(base, more[..n], Merged(base, more, n))
  {
    var r := Merged(base, more, n);
    if n == 0 {
      var none: seq<nat> := [];
      assert FoundAt(more[..0], r[|base|..], none);
    } else {
      MergedIsJoined(base, more, n - 1);
      var m, x := Merged(base, more, n - 1), more[n - 1];
      var at: seq<nat> :| FoundAt(more[..n - 1], m[|base|..], at);
      assert more[..n] == more[..n - 1] + [x];
      if x in m {
        assert FoundAt(more[..n], r[|base|..], at);
      } else {
        assert r[|base|..] == m[|base|..] + [x];
        assert FoundAt(more[..n], r[|base|..], at + [n - 1]);
        assert r[..|base|] == m[..|base|];
      }
    }
  }

  /** The new address's entry is the two lists joined, the old one's is gone, others are as before. */
  ghost predicate ListsJoined(lists: map<nat, seq<nat>>, lists': map<nat, seq<nat>>, oldAddr: nat, newAddr: nat) {
    && Joined(ListAt(lists, newAddr), ListAt(lists, oldAddr), ListAt(lists', newAddr))
    && oldAddr !in lists'
    && (forall who :: who !in {oldAddr, newAddr} ==> ListAt(lists', who) == ListAt(lists, who))
  }

  lemma MoveListJoins(lists: map<nat, seq<nat>>, oldAddr: nat, newAddr: nat)
    requires oldAddr != newAddr
    ensures ListsJoined(lists, MoveList(lists, oldAddr, newAddr), oldAddr, newAddr)
  {
    hide Merged;
    var base, more := ListAt(lists, newAddr), ListAt(lists, oldAddr);
    MergedIsJoined(base, more, |more|);
    assert more[..|more|] == more;
    if more == [] {
      var none: seq<nat> := [];
      assert FoundAt(more, base[|base|..], none);
    }
  }

  // ----- Rotation: the whole call -----

  /** A setting is the new address's if the old one had it, otherwise as before; the old one has none. */
  ghost predicate SettingMoved<T>(m: map<nat, T>, m': map<nat, T>, oldAddr: nat, newAddr: nat)
    requires oldAddr != newAddr
  {
    && oldAddr !in m'
    && (forall who :: who != oldAddr ==> (who in m' <==> who in m || (who == newAddr && oldAddr in m)))
    && (oldAddr in m ==> m'[newAddr] == m[oldAddr])
    && (forall who :: who in m && who != oldAddr && (who == newAddr ==> oldAddr !in m) ==> m'[who] == m[who])
  }

  /** Every listed subscription of the old address names the new one; nothing else of any account changes. */
  predicate Readdressed(accounts: map<nat, Account>, accounts': map<nat, Account>, listed: seq<nat>, oldAddr: nat, newAddr: nat) {
    && accounts'.Keys == accounts.Keys
    && forall id :: id in accounts ==>
         accounts'[id] == accounts[id].(sub := accounts[id].sub.(
           merchant := if id in listed && accounts[id].sub.merchant == oldAddr then newAddr else accounts[id].sub.merchant))
  }

  /** Balances and earnings of the listed tokens go over to the new address. */
  predicate BooksMoved(l: Ledger.Ledger, l': Ledger.Ledger, listed: seq<nat>, oldAddr: nat, newAddr: nat, who: nat, t: nat) {
    if t !in listed || who !in {oldAddr, newAddr} then
      Ledger.BalanceOf(l', who, t) == Ledger.BalanceOf(l, who, t) && Ledger.EarningsOf(l', who, t) == Ledger.EarningsOf(l, who, t)
    else if who == oldAddr then
      Ledger.BalanceOf(l', who, t) == 0 && Ledger.EarningsOf(l', who, t) == Ledger.Earnings(0, 0, 0, 0, 0)
    else
      && Ledger.BalanceOf(l', who, t) == Ledger.BalanceOf(l, newAddr, t) + Ledger.BalanceOf(l, oldAddr, t)
      && Ledger.EarningsOf(l', who, t) == Ledger.EarningsOf(l, if (oldAddr, t) in l.earnings then oldAddr else newAddr, t)
  }

  /** A rotation onto another address: subscriptions, money, pause flag, vacation, registration and
      lists go over, and nothing else changes. */
  lemma RotationMovesAll(v: Vault, oldAddr: nat, newAddr: nat)
    requires oldAddr != newAddr && RotateMerchant(v, oldAddr, newAddr).Ok?
    ensures var v' := RotateMerchant(v, oldAddr, newAddr).value;
            && Readdressed(v.accounts, v'.accounts, ListAt(v.merchants.subs, oldAddr), oldAddr, newAddr)
            && (forall who, t :: BooksMoved(v.ledger, v'.ledger, ListAt(v.ledger.tokens, oldAddr), oldAddr, newAddr, who, t))
            && ListsJoined(v.ledger.tokens, v'.ledger.tokens, oldAddr, newAddr)
            && ListsJoined(v.merchants.subs, v'.merchants.subs, oldAddr, newAddr)
            && SettingMoved(v.cfg.paused, v'.cfg.paused, oldAddr, newAddr)
            && SettingMoved(v.cfg.vacations, v'.cfg.vacations, oldAddr, newAddr)
            && (forall who :: who in v'.merchants.configured <==>
                  who != oldAddr && (who in v.merchants.configured || (who == newAddr && oldAddr in v.merchants.configured)))
            && v'.merchants.schedules == v.merchants.schedules
            && v' == v.(accounts := v'.accounts, ledger := v'.ledger, cfg := v.cfg.(paused := v'.cfg.paused, vacations := v'.cfg.vacations), merchants := v'.merchants)
  {
    hide MoveTokens, MoveList, Joined, BooksMoved;
    var v', tokens := RotateMerchant(v, oldAddr, newAddr).value, ListAt(v.ledger.tokens, oldAddr);
    MoveListJoins(v.ledger.tokens, oldAddr, newAddr);
    MoveListJoins(v.merchants.subs, oldAddr, newAddr);
    forall who, t ensures BooksMoved(v.ledger, v'.ledger, tokens, oldAddr, newAddr, who, t) {
      BooksMove(v, oldAddr, newAddr, who, t);
    }
  }

  lemma BooksMove(v: Vault, oldAddr: nat, newAddr: nat, who: nat, t: nat)
    requires oldAddr != newAddr && RotateMerchant(v, oldAddr, newAddr).Ok?
    ensures BooksMoved(v.ledger, RotateMerchant(v, oldAddr, newAddr).value.ledger, ListAt(v.ledger.tokens, oldAddr), oldAddr, newAddr, who, t)
  {
    hide MoveTokens, MoveList, MoveKey, Readdress;
    var tokens := ListAt(v.ledger.tokens, oldAddr);
    C.MoveTokensEffect(v.ledger, oldAddr, newAddr, tokens, |tokens|, who, t);
    assert tokens[..|tokens|] == tokens;
  }

  /** A rotation onto the same address erases what it should move. */
  lemma SelfRotationErases(v: Vault, addr: nat)
    requires RotateMerchant(v, addr, addr).Ok?
    ensures var v' := RotateMerchant(v, addr, addr).value;
            && addr !in v'.cfg.paused && addr !in v'.cfg.vacations && addr !in v'.merchants.configured
            && ListAt(v'.merchants.subs, addr) == [] && ListAt(v'.ledger.tokens, addr) == []
            && v'.accounts == v.accounts
  {
    hide MoveTokens, Merged;
  }

  // ----- Who is paid after a rotation -----

  lemma RecordKeepsMerchant(cfg: Config, a: Account, p: Plan, id: nat, now: nat, key: Option<nat>)
    requires p.sub.merchant == a.sub.merchant
    ensures RecordInterval(cfg, a, p, id, now, key).0.sub.merchant == a.sub.merchant
  {
    hide StatementLog.Append, CapIsReached;
  }

  lemma CarryKeepsMerchant(v: Vault, id: nat, settings: Admin, key: Option<nat>, d: Decision)
    requires id in v.accounts && MovesNothing(v.accounts[id], d)
    requires d.Settle? ==> d.plan.sub.merchant == v.accounts[id].sub.merchant
    ensures var v' := Carry(v, id, settings, key, d).0; id in v'.accounts && v'.accounts[id].sub.merchant == v.accounts[id].sub.merchant
  {
    hide RecordInterval, Credits, Ledger.CreditAll;
    if d.Settle? { RecordKeepsMerchant(v.cfg, v.accounts[id], d.plan, id, v.now, key); }
  }

  lemma ChargeKeepsMerchants(v: Vault, id: nat, key: Option<nat>, admin: Option<Admin>, cache: Option<Cache>)
    requires Inv(v)
    ensures SameMerchants(v, ChargeOne(v, id, key, admin, cache).vault)
  {
    hide Inv, DecideInterval, Carry, PartyObstacle, MovesNothing, AccountInv;
    ChargeOneFrame(v, id, key, admin, cache);
    if id in v.accounts {
      var settings, a := if admin.Some? then admin.value else StoredAdmin(v.cfg), v.accounts[id];
      Known(v, id);
      InvFacts(v);
      var d := DecideInterval(v.cfg, settings, a, id, v.now, v.ledgerSeq, key);
      FinishIsHarmless(v.cfg, settings, a, id, v.now, v.ledgerSeq, key);
      SettlesIff(v.cfg, settings, a, id, v.now, v.ledgerSeq, key);
      CarryKeepsMerchant(v, id, settings, key, d);
    }
  }

  lemma {:induction false} BatchKeepsMerchants(v: Vault, ids: seq<nat>, keys: Option<seq<nat>>, admin: Option<Admin>, cache: Option<Cache>, n: nat)
    requires Inv(v) && n <= |ids| && (admin.None? || admin == ReadAdmin(v.cfg))
    ensures SameMerchants(v, BatchRun(v, ids, keys, admin, cache, n).vault)
  {
    hide Inv, ChargeOne;
    if n > 0 {
      BatchKeepsMerchants(v, ids, keys, admin, cache, n - 1);
      BatchRunInv(v, ids, keys, admin, cache, n - 1);
      var b := BatchRun(v, ids, keys, admin, cache, n - 1);
      if !b.trapped { ChargeKeepsMerchants(b.vault, ids[n - 1], KeyAt(keys, n - 1), admin, b.cache); }
    }
  }

  lemma UsageKeepsMerchants(v: Vault, id: nat, amount: int, reference: string)
    requires Inv(v)
    ensures SameMerchants(v, KeptFirst(v, ChargeUsage(v, id, amount, reference)))
  {
    hide Inv, ChargeUsage, Distributed, PartiesReady, UsageDue, MeterAccepts, HasExpired, UsageMeter.Admit, CurrentPeriod;
    if ChargeUsage(v, id, amount, reference).Ok? { UsageTaken(v, id, amount, reference); }
  }

  lemma SameAsBefore(v: Vault)
    ensures SameMerchants(v, v)
  {}

  lemma ChargeStepKeepsMerchants(v: Vault, op: Op)
    requires Inv(v) && IsCharge(op)
    ensures SameMerchants(v, ChargeStep(v, op))
  {
    SameAsBefore(v);
    hide Inv, ChargeOne, BatchRun, ChargeUsage, HasDuplicate, SameMerchants;
    match op {
      case Charge(id, key) => ChargeKeepsMerchants(v, id, key, None, None);
      case Batch(ids, keys) => BatchKeepsMerchants(v, ids, keys, ReadAdmin(v.cfg), Some(map[]), |ids|);
      case MeteredCharge(id, amount, reference) => UsageKeepsMerchants(v, id, amount, reference);
    }
  }

  lemma StepKeepsMerchants(v: Vault, op: Op)
    requires Inv(v) && !op.Rotate?
    ensures SameMerchants(v, Step(v, op))
  {
    hide Inv, ChargeStep, SettingStep, DisputeStep, MerchantStep, CouponStep, SubscriptionStep, SameMerchants, Quiet, Pays, Charges, Held;
    if IsCharge(op) { ChargeStepKeepsMerchants(v, op); } else { StepFrame(v, op); }
  }

  predicate NoRotation(ops: seq<Op>) { forall i :: 0 <= i < |ops| ==> !ops[i].Rotate? }

  /** Only a rotation changes whom a subscription pays. */
  lemma {:induction false} OnlyRotationChangesMerchant(v: Vault, ops: seq<Op>, id: nat)
    requires Inv(v) && IdsLast(v, ops) && NoRotation(ops) && id in v.accounts
    ensures id in Run(v, ops).accounts && Run(v, ops).accounts[id].sub.merchant == v.accounts[id].sub.merchant
  {
    hide Inv, Step;
    if ops != [] {
      var n := |ops| - 1;
      OnlyRotationChangesMerchant(v, ops[..n], id);
      RunInv(v, ops[..n]);
      StepKeepsMerchants(Run(v, ops[..n]), ops[n]);
    }
  }

  /** After a rotation, and whatever is called later short of another rotation, a payment taken for
      a subscription it moved raises the new address's balance by the price less the fee, and the old
      address gets nothing of it (a split or a treasury aside). */
  lemma RotatedIsPaid(v: Vault, oldAddr: nat, newAddr: nat, ops: seq<Op>, id: nat, key: Option<nat>)
    requires Inv(v) && oldAddr != newAddr && RotateMerchant(v, oldAddr, newAddr).Ok?
    requires id in v.accounts && v.accounts[id].sub.merchant == oldAddr && id in ListAt(v.merchants.subs, oldAddr)
    requires NoRotation(ops) && IdsLast(Step(v, Rotate(oldAddr, newAddr)), ops)
    ensures var w := Run(Step(v, Rotate(oldAddr, newAddr)), ops);
            && id in w.accounts
            && (w.accounts[id].split.None? && w.cfg.treasury !in {Some(oldAddr), Some(newAddr)}
                && PaymentDue(w.cfg, w.accounts[id], id, w.now, w.ledgerSeq, key) && ChargeSubscription(w, id, key).Ok? ==>
                  var w', price, token := ChargeSubscription(w, id, key).value.0, Payable(w.cfg, w.accounts[id], w.now), w.accounts[id].sub.token;
                  && Ledger.BalanceOf(w'.ledger, newAddr, token) == Ledger.BalanceOf(w.ledger, newAddr, token) + price - Fee(price, w.cfg.feeBps, w.cfg.treasury)
                  && Ledger.BalanceOf(w'.ledger, oldAddr, token) == Ledger.BalanceOf(w.ledger, oldAddr, token))
  {
    hide Inv, ChargeOne, RotateMerchant, Run, PaymentDue, Paid, Payable, Fee, ListsJoined, SettingMoved, BooksMoved;
    var v1 := Step(v, Rotate(oldAddr, newAddr));
    RotationMovesAll(v, oldAddr, newAddr);
    StepInv(v, Rotate(oldAddr, newAddr));
    OnlyRotationChangesMerchant(v1, ops, id);
    RunInv(v1, ops);
    var w := Run(v1, ops);
    if w.accounts[id].split.None? && w.cfg.treasury !in {Some(oldAddr), Some(newAddr)} && PaymentDue(w.cfg, w.accounts[id], id, w.now, w.ledgerSeq, key) && ChargeSubscription(w, id, key).Ok? {
      ChargedIsTaken(w, id, key, None, None);
      var a, w' := w.accounts[id], ChargeOne(w, id, key, None, None).vault;
      var price := Payable(w.cfg, a, w.now);
      assert Gained(w.ledger, w'.ledger, a.sub.token, StatementLog.Interval, a.split, a.sub.merchant, price, w.cfg.feeBps, w.cfg.treasury, newAddr, a.sub.token);
      assert Gained(w.ledger, w'.ledger, a.sub.token, StatementLog.Interval, a.split, a.sub.merchant, price, w.cfg.feeBps, w.cfg.treasury, oldAddr, a.sub.token);
    }
  }

  // ----- Payouts -----

  predicate Approved(cfg: Config, merchant: nat) { cfg.whitelistMode ==> merchant in cfg.approved }

  /** A merchant has taken out an amount of a token: its balance and the tokens held fall by it, its
      books show it as given, and nothing else changes. */
  ghost predicate TookOut(v: Vault, v': Vault, merchant: nat, token: nat, amount: int, refunds: int, withdrawals: int) {
    && (forall who, t :: Ledger.BalanceOf(v'.ledger, who, t) == Ledger.BalanceOf(v.ledger, who, t) - (if who == merchant && t == token then amount else 0))
    && (forall who, t :: Ledger.EarningsOf(v'.ledger, who, t) == Booked(Ledger.EarningsOf(v.ledger, who, t), who == merchant && t == token, refunds, withdrawals))
    && (forall t :: Held(v', t) == Held(v, t) - (if t == token then amount else 0))
    && v'.ledger.tokens == v.ledger.tokens
    && v' == v.(ledger := v'.ledger, held := v'.held)
  }

  function Booked(e: Ledger.Earnings, his: bool, refunds: int, withdrawals: int): Ledger.Earnings {
    if his then Ledger.Earnings(e.interval, e.usage, e.oneOff, e.withdrawals + withdrawals, e.refunds + refunds) else e
  }

  /** A merchant withdraws any positive amount up to its balance, unless the contract is stopped, the
      merchant is not approved, not registered or blocklisted, or the token is not accepted; the
      amount leaves its balance and the contract, and is booked as a refund and as a withdrawal. */
  lemma WithdrawalTakes(v: Vault, merchant: nat, token: nat, amount: int)
    ensures var e := Ledger.EarningsOf(v.ledger, merchant, token);
            var r := WithdrawMerchant(v, merchant, token, amount);
            && (r.Ok? <==>
                  && !v.cfg.emergencyStop && Approved(v.cfg, merchant) && merchant !in v.cfg.blocked && merchant in v.merchants.configured
                  && token in v.cfg.acceptedTokens
                  && 0 < amount <= Ledger.BalanceOf(v.ledger, merchant, token) && amount <= Held(v, token)
                  && InI128(e.refunds + amount) && InI128(e.withdrawals + amount))
            && (r.Ok? ==> TookOut(v, r.value, merchant, token, amount, amount, amount))
  {}

  /** A refund by a merchant takes it from its balance in the same way, booked as a refund only, and
      is possible on a stopped contract, too. */
  lemma RefundTakes(v: Vault, merchant: nat, token: nat, amount: int)
    ensures var r := MerchantRefund(v, merchant, token, amount);
            && (r.Ok? <==>
                  && Approved(v.cfg, merchant) && merchant in v.merchants.configured
                  && 0 < amount <= Ledger.BalanceOf(v.ledger, merchant, token) && amount <= Held(v, token)
                  && InI128(Ledger.EarningsOf(v.ledger, merchant, token).refunds + amount))
            && (r.Ok? ==> TookOut(v, r.value, merchant, token, amount, amount, 0))
  {}

  /** The listed balances a flush pays. */
  function FlushDue(v: Vault, merchant: nat, tokens: seq<nat>, minPayout: int): set<nat> {
    set t | t in tokens && Ledger.BalanceOf(v.ledger, merchant, t) >= Max(minPayout, 1)
  }

  ghost predicate Flushed(v: Vault, v': Vault, merchant: nat, due: set<nat>) {
    && (forall who, t :: Ledger.BalanceOf(v'.ledger, who, t) == (if who == merchant && t in due then 0 else Ledger.BalanceOf(v.ledger, who, t)))
    && (forall who, t :: Ledger.EarningsOf(v'.ledger, who, t)
                      == Booked(Ledger.EarningsOf(v.ledger, who, t), who == merchant && t in due, 0, Ledger.BalanceOf(v.ledger, merchant, t)))
    && (forall t :: Held(v', t) == Held(v, t) - (if t in due then Ledger.BalanceOf(v.ledger, merchant, t) else 0))
    && v'.ledger.tokens == v.ledger.tokens
    && v' == v.(ledger := v'.ledger, held := v'.held)
  }

  lemma OneFlushed(v: Vault, merchant: nat, token: nat, minPayout: int)
    ensures var r := FlushToken(v, merchant, token, minPayout);
            var b := Ledger.BalanceOf(v.ledger, merchant, token);
            var due := if b >= Max(minPayout, 1) then {token} else {};
            && (r.Ok? <==> due == {} || (merchant in v.merchants.configured && InI128(Ledger.EarningsOf(v.ledger, merchant, token).withdrawals + b) && b <= Held(v, token)))
            && (r.Ok? ==> Flushed(v, r.value.0, merchant, due) && (r.value.1 > 0 <==> due != {}))
  {}

  lemma FlushedTwice(v: Vault, w: Vault, x: Vault, merchant: nat, first: set<nat>, second: set<nat>)
    requires first !! second && Flushed(v, w, merchant, first) && Flushed(w, x, merchant, second)
    ensures Flushed(v, x, merchant, first + second)
    ensures |first + second| == |first| + |second|
  {}

  lemma NothingFlushed(v: Vault, merchant: nat, tokens: seq<nat>, minPayout: int)
    ensures FlushDue(v, merchant, tokens[..0], minPayout) == {} && Flushed(v, v, merchant, {})
  {}

  /** One more token of the list is due if its balance reaches the minimum. */
  lemma DueGrows(v: Vault, merchant: nat, tokens: seq<nat>, minPayout: int, n: nat)
    requires 0 < n <= |tokens|
    ensures FlushDue(v, merchant, tokens[..n], minPayout)
         == FlushDue(v, merchant, tokens[..n - 1], minPayout) + (if Ledger.BalanceOf(v.ledger, merchant, tokens[n - 1]) >= Max(minPayout, 1) then {tokens[n - 1]} else {})
    ensures tokens[n - 1] in FlushDue(v, merchant, tokens[..n - 1], minPayout) ==> Ledger.BalanceOf(v.ledger, merchant, tokens[n - 1]) >= Max(minPayout, 1)
  {
    assert tokens[..n] == tokens[..n - 1] + [tokens[n - 1]];
  }

  lemma FlushedBalance(v: Vault, w: Vault, merchant: nat, due: set<nat>, t: nat)
    requires Flushed(v, w, merchant, due)
    ensures Ledger.BalanceOf(w.ledger, merchant, t) == (if t in due then 0 else Ledger.BalanceOf(v.ledger, merchant, t))
  {}

  /** After the first n tokens of the list exactly the due ones among them have been paid, in full and once. */
  lemma {:induction false} TokensFlushed(v: Vault, merchant: nat, tokens: seq<nat>, minPayout: int, n: nat)
    requires n <= |tokens| && FlushTokens(v, merchant, tokens, minPayout, n).Ok?
    ensures var (v', paid) := FlushTokens(v, merchant, tokens, minPayout, n).value;
            var due := FlushDue(v, merchant, tokens[..n], minPayout);
            Flushed(v, v', merchant, due) && paid == Min(|due|, U32_MAX)
  {
    hide FlushToken, Flushed, FlushDue, Ledger.BalanceOf;
    if n == 0 {
      NothingFlushed(v, merchant, tokens, minPayout);
    } else {
      var t := tokens[n - 1];
      TokensFlushed(v, merchant, tokens, minPayout, n - 1);
      DueGrows(v, merchant, tokens, minPayout, n);
      var w, due := FlushTokens(v, merchant, tokens, minPayout, n - 1).value.0, FlushDue(v, merchant, tokens[..n - 1], minPayout);
      OneFlushed(w, merchant, t, minPayout);
      FlushedBalance(v, w, merchant, due, t);
      var last := if Ledger.BalanceOf(w.ledger, merchant, t) >= Max(minPayout, 1) then {t} else {};
      FlushedTwice(v, w, FlushTokens(v, merchant, tokens, minPayout, n).value.0, merchant, due, last);
      assert FlushDue(v, merchant, tokens[..n], minPayout) == due + last;
    }
  }

  /** A due balance can be paid: the merchant is registered, its books have room and the tokens are held. */
  predicate CanPayOut(v: Vault, merchant: nat, t: nat) {
    var b := Ledger.BalanceOf(v.ledger, merchant, t);
    merchant in v.merchants.configured && InI128(Ledger.EarningsOf(v.ledger, merchant, t).withdrawals + b) && b <= Held(v, t)
  }

  lemma PayoutUnmoved(v: Vault, w: Vault, merchant: nat, due: set<nat>, t: nat)
    requires Flushed(v, w, merchant, due) && t !in due
    ensures CanPayOut(w, merchant, t) == CanPayOut(v, merchant, t)
    ensures Ledger.BalanceOf(w.ledger, merchant, t) == Ledger.BalanceOf(v.ledger, merchant, t)
  {}

  /** The loop goes through exactly when every due balance can be paid. */
  lemma {:induction false} TokensFlushIff(v: Vault, merchant: nat, tokens: seq<nat>, minPayout: int, n: nat)
    requires n <= |tokens|
    ensures FlushTokens(v, merchant, tokens, minPayout, n).Ok?
       <==> forall t :: t in FlushDue(v, merchant, tokens[..n], minPayout) ==> CanPayOut(v, merchant, t)
  {
    hide FlushToken, Flushed, Ledger.BalanceOf;
    if n > 0 {
      TokensFlushIff(v, merchant, tokens, minPayout, n - 1);
      var t, init := tokens[n - 1], FlushDue(v, merchant, tokens[..n - 1], minPayout);
      DueGrows(v, merchant, tokens, minPayout, n);
      if FlushTokens(v, merchant, tokens, minPayout, n - 1).Ok? {
        TokensFlushed(v, merchant, tokens, minPayout, n - 1);
        var (w, _) := FlushTokens(v, merchant, tokens, minPayout, n - 1).value;
        OneFlushed(w, merchant, t, minPayout);
        FlushedBalance(v, w, merchant, init, t);
        if t !in init { PayoutUnmoved(v, w, merchant, init, t); }
      }
    }
  }

  /** A flush without a schedule does nothing. With one it is refused before the cadence has passed
      since the last payout; otherwise it goes through exactly when every listed balance that reaches
      the minimum can be paid, pays these in full and once, reports their number and sets the clock. */
  lemma FlushPaysDue(v: Vault, merchant: nat)
    requires !v.cfg.emergencyStop && Approved(v.cfg, merchant)
    ensures var r, s := FlushPayouts(v, merchant), if merchant in v.merchants.schedules then v.merchants.schedules[merchant] else Schedule(0, 0, 0);
            var due := FlushDue(v, merchant, Ledger.TokensOf(v.ledger, merchant), s.minPayout);
            if s.cadence == 0 && s.minPayout == 0 then r == Ok((v, 0))
            else if s.lastPayoutAt > 0 && v.now < s.lastPayoutAt + s.cadence && s.cadence > 0 then r == Err(IntervalNotElapsed)
            else
              && (r.Ok? <==> forall t :: t in due ==> CanPayOut(v, merchant, t))
              && (r.Ok? ==>
                    && r.value.1 == Min(|due|, U32_MAX)
                    && r.value.0.merchants == v.merchants.(schedules := v.merchants.schedules[merchant := Schedule(s.cadence, s.minPayout, v.now)])
                    && Flushed(v, r.value.0.(merchants := v.merchants), merchant, due))
  {
    hide FlushTokens, Ledger.TokensOf, CanPayOut;
    var tokens := Ledger.TokensOf(v.ledger, merchant);
    assert tokens[..|tokens|] == tokens;
    TokensFlushIff(v, merchant, tokens, ScheduleOf(v, merchant).minPayout, |tokens|);
    if FlushTokens(v, merchant, tokens, ScheduleOf(v, merchant).minPayout, |tokens|).Ok? {
      TokensFlushed(v, merchant, tokens, ScheduleOf(v, merchant).minPayout, |tokens|);
    }
  }

  /** Nobody flushes on a stopped contract, and only an approved merchant does. */
  lemma FlushRefused(v: Vault, merchant: nat)
    ensures v.cfg.emergencyStop ==> FlushPayouts(v, merchant) == Err(EmergencyStopActive)
    ensures !v.cfg.emergencyStop && !Approved(v.cfg, merchant) ==> FlushPayouts(v, merchant) == Err(MerchantNotApproved)
  {
    hide FlushTokens;
  }

  // ----- Settings -----

  /** A schedule takes any cadence and non-negative minimum and keeps the time of the last payout. */
  lemma ScheduleStored(v: Vault, merchant: nat, cadence: nat, minPayout: int)
    ensures var r := SetSchedule(v, merchant, cadence, minPayout);
            var last := if merchant in v.merchants.schedules then v.merchants.schedules[merchant].lastPayoutAt else 0;
            && (r.Ok? <==> minPayout >= 0)
            && (r.Ok? ==> r.value == v.(merchants := v.merchants.(schedules := v.merchants.schedules[merchant := Schedule(cadence, minPayout, last)])))
  {}

  /** A merchant registers while approved, and changes its settings at any time, with a fee of at
      most 10000 and operations among the five flags that include charging; registering lifts a pause. */
  lemma RegistrationIff(v: Vault, merchant: nat, feeBips: int, operations: int, paused: bool)
    ensures var allowed := feeBips <= 10_000 && 0 <= operations < 32 && operations % 2 == 1;
            var registered := v.(merchants := v.merchants.(configured := v.merchants.configured + {merchant}));
            && InitializeMerchant(v, merchant, feeBips, operations).Ok? == (Approved(v.cfg, merchant) && allowed)
            && SetMerchantConfig(v, merchant, feeBips, operations, paused).Ok? == allowed
            && Kept(v, InitializeMerchant(v, merchant, feeBips, operations))
                 == (if Approved(v.cfg, merchant) && allowed then registered.(cfg := v.cfg.(paused := v.cfg.paused[merchant := false])) else v)
            && Kept(v, SetMerchantConfig(v, merchant, feeBips, operations, paused))
                 == (if allowed then registered.(cfg := v.cfg.(paused := v.cfg.paused[merchant := paused])) else v)
  {}
}
