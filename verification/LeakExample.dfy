/** A run of a new contract that ends in a leak. A merchant with a cap override charges almost the
    largest i128 as usage and withdraws it, which leaves the lifetime total with no room for the next
    interval charge. A batch still credits that charge before it is refused, and goes on: the
    contract then owes ten units more than it holds. */
module LeakExample {
  import opened Base
  import opened StateMachine
  import opened Accounts
  import opened AccountLaws
  import opened Vault
  import opened VaultTotals
  import opened VaultInvariant
  import opened VaultConservation
  import opened VaultRuns
  import opened VaultSolvency
  import opened VaultBatches
  import IdemRing
  import Ledger
  import Snapshots
  import StatementLog
  import UsageMeter

  const CFG := Config(false, 0, None, Some(0), 0, 86_400, 604_800, false, {}, map[], map[], {}, map[], map[], {2}, Some(1), {3})

  const LIMITS := UsageMeter.Limits(None, 0, 0, None)

  const BIG: int := I128_MAX - 5

  /** Subscriber 1, merchant 2, token 3: ten units every sixty seconds. */
  const CALLS: seq<Op> := [
    NewMerchant(2, 0, 1),
    Create(1, 2, 3, 10, 60, true, None, None, None, None, false, Some(LIMITS)),
    DoDeposit(0, I128_MAX),
    MeteredCharge(0, BIG, "u"),
    MerchantWithdrawal(2, 3, BIG),
    DoDeposit(0, 5),
    Tick(60, 0)]

  // ----- The states of the run -----

  const SUB := Subscription(1, 2, 3, 10, 60, 0, Active, 0, true, None, 0, 0, None, None, None, true, None, None, false)

  const ACCOUNT := Account(SUB, None, None, StatementLog.EMPTY, Snapshots.EMPTY, IdemRing.EMPTY, None, 0, Some(LIMITS), None, {})

  const FUNDED := ACCOUNT.(sub := SUB.(prepaid := I128_MAX))

  const METERED := FUNDED.(meter := Some(UsageMeter.Meter(0, 0, 1, BIG, 0)))

  const USAGE := Plan(FUNDED.sub, BIG, 0, 0)

  const CHARGED_SUB := SUB.(prepaid := 5, lifetimeCharged := BIG)

  const START: Vault := Initial(CFG, 0, 0)

  function Registered(): Vault { START.(cfg := CFG.(paused := map[2 := false]), merchants := Merchants({2}, map[], map[])) }

  function Created(a: Account): Vault {
    Registered().(accounts := map[0 := a], nextSub := 1, merchants := Merchants({2}, map[2 := [0]], map[]))
  }

  function Earned(): Ledger.Ledger {
    Ledger.Ledger(map[(2, 3) := BIG], map[(2, 3) := Ledger.Earnings(0, BIG, 0, 0, 0)], map[2 := [3]])
  }

  function PaidOut(): Ledger.Ledger {
    Ledger.Ledger(map[(2, 3) := 0], map[(2, 3) := Ledger.Earnings(0, BIG, 0, BIG, BIG)], map[2 := [3]])
  }

  lemma UsageRecorded()
    ensures RecordUsage(METERED, USAGE, 0, "u").Ok?
    ensures RecordUsage(METERED, USAGE, 0, "u").value == Charged() == METERED.(sub := CHARGED_SUB, references := {"u"}, snaps := Charged().snaps, log := Charged().log)
  {}

  function Charged(): Account {
    var r := RecordUsage(METERED, USAGE, 0, "u");
    if r.Ok? then r.value else METERED
  }

  function Ready(): Vault {
    Created(Charged().(sub := CHARGED_SUB.(prepaid := 10))).(ledger := PaidOut(), held := map[3 := 10], now := 60)
  }

  // ----- Its steps -----

  lemma Registers()
    ensures Step(START, CALLS[0]) == Registered()
  {
    var none: map<nat, bool> := map[];
    assert none[2 := false] == map[2 := false];
  }

  lemma Creates()
    ensures Step(Registered(), CALLS[1]) == Created(ACCOUNT)
  {
    var v := Registered();
    var empty: seq<nat> := [];
    assert v.nextSub == 0 && v.merchants.subs == map[] && v.accounts == map[];
    assert empty + [0] == [0];
    var r := CreateSubscription(v, 1, 2, 3, 10, 60, true, None, None, None, None, false, Some(LIMITS));
    assert r.Ok?;
    assert r.value.0.accounts == map[0 := ACCOUNT];
    assert r.value.0.merchants == Merchants({2}, map[2 := [0]], map[]);
  }

  lemma Funds()
    ensures Step(Created(ACCOUNT), CALLS[2]) == Created(FUNDED).(held := map[3 := I128_MAX])
  {}

  lemma UsageDecided()
    ensures DecideUsage(Registered().cfg, FUNDED, 0, 0, BIG, "u") == SettleUsage(METERED, USAGE)
  {
    assert UsageMeter.PeriodAt(0, 0, 60) == 0;
  }

  lemma UsageCredited()
    ensures Ledger.CreditAll(START.ledger, Credits(METERED, 2, BIG, 0, None), 3, StatementLog.Usage) == (Earned(), None)
  {
    var none: seq<(nat, int)> := [];
    var credits := Credits(METERED, 2, BIG, 0, None);
    assert [(2, BIG)] + none == [(2, BIG)];
    assert credits == [(2, BIG)] && credits[..0] == none;
    assert Ledger.CreditAll(START.ledger, none, 3, StatementLog.Usage) == (START.ledger, None);
    var tokens: seq<nat> := [];
    assert tokens + [3] == [3];
  }

  lemma Charges()
    ensures Step(Created(FUNDED).(held := map[3 := I128_MAX]), CALLS[3]) == Created(Charged()).(held := map[3 := I128_MAX], ledger := Earned())
  {
    hide DecideUsage, RecordUsage, Ledger.CreditAll, Credits;
    UsageDecided();
    UsageCredited();
    UsageRecorded();
  }

  lemma Withdraws()
    ensures Step(Created(Charged()).(held := map[3 := I128_MAX], ledger := Earned()), CALLS[4]) == Created(Charged()).(held := map[3 := 5], ledger := PaidOut())
  {
    hide Charged;
    var v := Created(Charged()).(held := map[3 := I128_MAX], ledger := Earned());
    var r := WithdrawMerchant(v, 2, 3, BIG);
    assert r.Ok?;
    assert r.value.ledger == PaidOut();
    assert r.value.held == map[3 := 5];
  }

  lemma FundsAgain()
    ensures Step(Created(Charged()).(held := map[3 := 5], ledger := PaidOut()), CALLS[5]) == Ready().(now := 0)
  {
    hide Charged, RecordUsage;
    UsageRecorded();
    var v := Created(Charged()).(held := map[3 := 5], ledger := PaidOut());
    var r := Deposit(v, 0, 5);
    assert r.Ok?;
    assert r.value.accounts == Ready().accounts;
    assert r.value.held == map[3 := 10];
  }

  lemma RunOneMore(v: Vault, ops: seq<Op>, n: nat)
    requires n < |ops|
    ensures Run(v, ops[..n + 1]) == Step(Run(v, ops[..n]), ops[n])
  {
    hide Step;
    assert ops[..n + 1][..n] == ops[..n];
  }

  lemma CallsReach()
    ensures Run(START, CALLS) == Ready()
  {
    hide Step, Created, Registered, Ready, Charged, Earned, PaidOut;
    assert CALLS[..0] == [] && CALLS[..7] == CALLS;
    Registers();
    Creates();
    Funds();
    Charges();
    Withdraws();
    FundsAgain();
    Passes();
    RunOneMore(START, CALLS, 0);
    RunOneMore(START, CALLS, 1);
    RunOneMore(START, CALLS, 2);
    RunOneMore(START, CALLS, 3);
    RunOneMore(START, CALLS, 4);
    RunOneMore(START, CALLS, 5);
    RunOneMore(START, CALLS, 6);
  }

  lemma Passes()
    ensures Step(Ready().(now := 0), CALLS[6]) == Ready()
  {
    hide Charged, PaidOut;
  }

  // ----- The batch -----

  lemma Decision()
    ensures DecideInterval(Ready().cfg, StoredAdmin(Ready().cfg), Ready().accounts[0], 0, 60, 0, None) == Settle(Plan(CHARGED_SUB.(prepaid := 10), 10, 1, 60))
  {
    hide Charged, RecordUsage;
    UsageRecorded();
    assert ChargeAmount(Ready().cfg, Ready().accounts[0], 60) == Ok(10);
    assert UsageMeter.PeriodAt(60, 0, 60) == 1;
  }

  /** The charge is credited, and refused for the lifetime total. */
  lemma Leak()
    ensures SettleLeak(Ready(), 0, StoredAdmin(CFG), Plan(CHARGED_SUB.(prepaid := 10), 10, 1, 60), 3) == 10
  {
    hide Charged, RecordUsage;
    UsageRecorded();
    var credits := Credits(Ready().accounts[0], 2, 10, 0, None);
    var none: seq<(nat, int)> := [];
    assert [(2, 10)] + none == [(2, 10)];
    assert credits == [(2, 10)] && credits[..0] == none;
    assert Ledger.CreditAll(PaidOut(), none, 3, StatementLog.Interval) == (PaidOut(), None);
  }

  lemma ItemLeaks()
    ensures LeftBehind(Ready(), [0], None, 3) == 10
  {
    hide DecideInterval, SettleLeak, BatchRun, Ready;
    Decision();
    Leak();
    var cache: Option<Cache> := Some(map[]);
    BatchLeakAgrees(Ready(), [0], None, 1, 3);
    ReadyFacts();
    StartsHere();
    assert |[0]| == 1;
    assert BatchLeak(Ready(), [0], None, None, None, 0, 3) == 0;
    assert ItemLeak(Ready(), 0, KeyAt(None, 0), None, None, 3) == 10;
  }

  lemma ReadyFacts()
    ensures Ready().now == 60 && Ready().ledgerSeq == 0 && 0 in Ready().accounts && !Ready().cfg.emergencyStop && StoredAdmin(Ready().cfg) == StoredAdmin(CFG)
    ensures PartyObstacle(Ready().cfg, Ready().accounts[0], MerchantStatus(Ready().cfg, Ready().accounts[0].sub.merchant, 60), 60) == None
  {
    hide Charged, RecordUsage;
    UsageRecorded();
  }

  lemma StartsHere()
    ensures BatchRun(Ready(), [0], None, None, None, 0) == BatchState(Ready(), None, [], false)
  {
    hide Ready;
  }

  /** After the calls the contract holds exactly what it owes; after the batch it owes ten units
      more. */
  lemma BatchCanLeak()
    ensures Inv(START) && IdsLast(START, CALLS)
    ensures Surplus(Run(START, CALLS), 3) == 0 && Surplus(Step(Run(START, CALLS), Batch([0], None)), 3) == -10
  {
    hide Inv, Surplus, Run, Step, LeftBehind, Ready, BatchCharge, Solvent;
    InitialInv(CFG, 0, 0, 3);
    NoOpenings();
    RunInv(START, CALLS);
    RunConserves(START, CALLS, 3);
    CallsReach();
    ItemLeaks();
    StartSolvent();
    RunSolvent(START, CALLS);
    Accepted();
    BatchNeverAborts(Ready(), [0], None);
    BatchLosesWhatIsLeft(Ready(), [0], None, 3);
    StepIsBatch(Ready(), [0], None);
  }

  lemma NoOpenings()
    ensures Openings(CALLS) == 0 && AllFit(START, CALLS)
  {
    forall n | 0 <= n <= |CALLS| ensures Openings(CALLS[..n]) == 0 && AllFit(START, CALLS[..n]) { NoneOpens(n); }
    assert CALLS[..|CALLS|] == CALLS;
  }

  lemma {:induction false} NoneOpens(n: nat)
    requires n <= |CALLS|
    ensures Openings(CALLS[..n]) == 0 && AllFit(START, CALLS[..n])
  {
    hide Run;
    if n > 0 {
      NoneOpens(n - 1);
      assert CALLS[..n][..n - 1] == CALLS[..n - 1];
    }
  }

  lemma StartSolvent()
    ensures Solvent(START)
  {
    forall t ensures SolventIn(START, t) { InitialInv(CFG, 0, 0, t); }
  }

  lemma Accepted()
    ensures Accepts(Ready(), [0], None)
  {
    hide Ready, Created;
    ReadyFacts();
    assert !HasDuplicate([0]);
  }
}
