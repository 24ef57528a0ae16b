/** Direct rotation of the administrator. It asks for the approval of a proposal but neither looks
    at the cutoff nor consumes the one proposal it can succeed with, so what is proved of voting and
    execution does not carry over to it. */
module Rotation {
  import opened Base
  import opened Governance

  // ----- When it goes through -----

  /** An open proposal to make this address the administrator, with no further parameters. */
  predicate IsFor(p: Proposal, newAdmin: nat) {
    !p.executed && p.kind == RotateAdmin && p.target == newAdmin && p.target2 == None && p.target3 == 0
  }

  ghost predicate NoMatchUpTo(g: Gov, newAdmin: nat, n: int) {
    forall id :: 1 <= id <= n && id in g.proposals ==> !IsFor(g.proposals[id], newAdmin)
  }

  /** Proposal 0 is for this rotation, its eta has passed, and its yes votes weigh at least the
      quorum's share of its no votes. */
  ghost predicate ZeroApproves(g: Gov, newAdmin: nat) {
    && 0 in g.proposals && IsFor(g.proposals[0], newAdmin)
    && g.proposals[0].eta <= g.now
    && VotesAgainst(g.proposals[0], g.guardians) * g.proposals[0].quorumBps / BPS <= VotesFor(g.proposals[0], g.guardians)
  }

  lemma {:induction false} ScanFindsZero(g: Gov, newAdmin: nat, i: nat)
    requires i <= 10 && g.guardians != map[]
    ensures Approval(g, newAdmin, i) == Ok(0) <==> i <= g.nextId <= 9 && ZeroApproves(g, newAdmin) && NoMatchUpTo(g, newAdmin, g.nextId - i)
    decreases 10 - i
  {
    hide VotesFor, VotesAgainst;
    if i < 10 && i <= g.nextId {
      ScanFindsZero(g, newAdmin, i + 1);
      if g.nextId == i { assert g.nextId - i == 0; }
    }
  }

  /** A direct rotation goes through exactly for another address than the administrator's and the
      contract's, after the cooldown, and either without guardians or on proposal 0: at most nine
      proposals were ever made, 0 approves, and no later one is for the same rotation. */
  lemma DirectRotationIff(g: Gov, newAdmin: nat, cooldownOver: bool)
    requires Inv(g)
    ensures RotateDirectly(g, newAdmin, cooldownOver).Ok? <==>
              && newAdmin != g.admin && newAdmin != g.contract && cooldownOver
              && (g.guardians == map[] || (g.nextId <= 9 && ZeroApproves(g, newAdmin) && NoMatchUpTo(g, newAdmin, g.nextId)))
    ensures RotateDirectly(g, newAdmin, cooldownOver).Ok? ==> RotateDirectly(g, newAdmin, cooldownOver).value == g.(admin := newAdmin, cutoff := g.nextId)
  {
    hide Approval, ZeroApproves, NoMatchUpTo;
    if g.guardians == map[] {
      NobodyToAsk(g, newAdmin);
    } else {
      ScanFindsZero(g, newAdmin, 0);
      if Approval(g, newAdmin, 0).Ok? { ApprovalBelowNext(g, newAdmin, 0); }
    }
  }

  lemma NobodyToAsk(g: Gov, newAdmin: nat)
    requires g.guardians == map[]
    ensures Approval(g, newAdmin, 0) == Ok(0)
  {}

  // ----- The cutoff -----

  lemma {:induction false} ScanIgnoresCutoff(g: Gov, cutoff: nat, newAdmin: nat, i: nat)
    requires i <= 10
    ensures Approval(g.(cutoff := cutoff), newAdmin, i) == Approval(g, newAdmin, i)
    decreases 10 - i
  {
    hide VotesFor, VotesAgainst;
    if i < 10 { ScanIgnoresCutoff(g, cutoff, newAdmin, i + 1); }
  }

  /** The outcome is the same whatever the cutoff: an invalidated proposal still approves. */
  lemma CutoffIsNotConsulted(g: Gov, cutoff: nat, newAdmin: nat, cooldownOver: bool)
    ensures RotateDirectly(g.(cutoff := cutoff), newAdmin, cooldownOver) == RotateDirectly(g, newAdmin, cooldownOver)
  {
    hide Approval, Execute;
    ScanIgnoresCutoff(g, cutoff, newAdmin, 0);
  }

  /** So a vote of an earlier administrator, on a proposal closed to voting and execution, can
      decide a direct rotation: with yes it goes through, with no it is refused. */
  lemma EarlierVoteDecides(g: Gov, newAdmin: nat, voter: nat)
    requires Inv(g) && g.nextId <= 9 && newAdmin != g.admin && newAdmin != g.contract && NoMatchUpTo(g, newAdmin, g.nextId)
    requires 0 in g.proposals && IsFor(g.proposals[0], newAdmin) && g.proposals[0].eta <= g.now && g.proposals[0].votes == map[voter := true]
    requires voter != g.admin && voter in g.guardians && g.guardians[voter] * g.proposals[0].quorumBps >= BPS
    ensures 0 < g.cutoff && RotateDirectly(g, newAdmin, true).Ok?
    ensures var g' := WithVote(g, voter, false); Inv(g') && RotateDirectly(g', newAdmin, true) == Err(MultiSigQuorumNotReached)
  {
    hide RotateDirectly, NoMatchUpTo;
    var g' := WithVote(g, voter, false);
    assert ProposalOk(g, 0) && voter in g.proposals[0].votes.Keys;
    SoleTally(g.proposals[0], g.guardians, voter);
    SoleTally(g'.proposals[0], g'.guardians, voter);
    DirectRotationIff(g, newAdmin, true);
    WithVoteInv(g, voter, false);
    SameIsFor(g, voter, false, newAdmin);
    ScanRefuses(g', newAdmin, 0);
    RefusedByScan(g', newAdmin);
  }

  /** The same state with the one vote on proposal 0 cast the other way. */
  function WithVote(g: Gov, voter: nat, yes: bool): Gov
    requires 0 in g.proposals
  {
    g.(proposals := g.proposals[0 := g.proposals[0].(votes := map[voter := yes])])
  }

  lemma WithVoteInv(g: Gov, voter: nat, yes: bool)
    requires Inv(g) && 0 in g.proposals && 0 < g.cutoff
    ensures Inv(WithVote(g, voter, yes))
  {
    assert ProposalOk(g, 0);
  }

  lemma SameIsFor(g: Gov, voter: nat, yes: bool, newAdmin: nat)
    requires 0 in g.proposals && NoMatchUpTo(g, newAdmin, g.nextId)
    ensures NoMatchUpTo(WithVote(g, voter, yes), newAdmin, g.nextId)
  {}

  lemma SoleTally(p: Proposal, guardians: map<nat, nat>, voter: nat)
    requires p.votes.Keys == {voter} && voter in guardians && guardians[voter] <= U32_MAX
    ensures VotesFor(p, guardians) == (if p.votes[voter] then guardians[voter] else 0)
    ensures VotesAgainst(p, guardians) == (if p.votes[voter] then 0 else guardians[voter])
  {
    SoleVoter(p.votes, guardians, voter, true);
    SoleVoter(p.votes, guardians, voter, false);
  }

  lemma {:induction false} ScanRefuses(g: Gov, newAdmin: nat, i: nat)
    requires i <= g.nextId <= 9 && g.guardians != map[] && NoMatchUpTo(g, newAdmin, g.nextId)
    requires 0 in g.proposals && IsFor(g.proposals[0], newAdmin) && g.proposals[0].eta <= g.now
    requires VotesFor(g.proposals[0], g.guardians) < VotesAgainst(g.proposals[0], g.guardians) * g.proposals[0].quorumBps / BPS
    ensures Approval(g, newAdmin, i) == Err(MultiSigQuorumNotReached)
    decreases 10 - i
  {
    hide VotesFor, VotesAgainst;
    if i < g.nextId { ScanRefuses(g, newAdmin, i + 1); }
  }

  lemma RefusedByScan(g: Gov, newAdmin: nat)
    requires newAdmin != g.admin && newAdmin != g.contract && Approval(g, newAdmin, 0).Err?
    ensures RotateDirectly(g, newAdmin, true) == Err(Approval(g, newAdmin, 0).error)
  {
    hide Approval;
  }

  // ----- Proposal 0 is not used up -----

  lemma RunOneMore(g: Gov, ops: seq<Op>, op: Op, id: nat)
    ensures Run(g, ops + [op]) == Step(Run(g, ops), op)
    ensures Effects(g, ops + [op], id) == Effects(g, ops, id) + (if TakesEffect(Run(g, ops), op, id) then [Run(g, ops).now] else [])
  {
    hide Step, TakesEffect;
    assert (ops + [op])[..|ops|] == ops;
  }

  lemma RotationOnZero(g: Gov, newAdmin: nat)
    requires Inv(g) && g.guardians != map[] && g.nextId <= 9 && ZeroApproves(g, newAdmin) && NoMatchUpTo(g, newAdmin, g.nextId)
    requires newAdmin != g.admin && newAdmin != g.contract
    ensures TakesEffect(g, DoRotate(newAdmin, true), 0) && Step(g, DoRotate(newAdmin, true)) == g.(admin := newAdmin, cutoff := g.nextId)
  {
    hide Approval, ZeroApproves, NoMatchUpTo;
    DirectRotationIff(g, newAdmin, true);
    ScanFindsZero(g, newAdmin, 0);
  }

  /** The role offered back and claimed a day later. */
  function HandBack(admin: nat): seq<Op> { [DoPropose(admin), Tick(ADMIN_PROPOSAL_COOLDOWN_SECS), DoClaim(admin)] }

  lemma HandBackRuns(g: Gov, admin: nat)
    requires g.pending.None? && admin != g.contract
    ensures Step(Step(Step(g, DoPropose(admin)), Tick(ADMIN_PROPOSAL_COOLDOWN_SECS)), DoClaim(admin))
         == g.(now := SaturatingAdd64(g.now, ADMIN_PROPOSAL_COOLDOWN_SECS), admin := admin, cutoff := g.nextId)
  {
    hide Execute, RotateDirectly;
  }

  lemma StillApproves(g: Gov, g': Gov, newAdmin: nat)
    requires g' == g.(now := g'.now, admin := g'.admin, cutoff := g'.cutoff) && g.now <= g'.now
    requires ZeroApproves(g, newAdmin) && NoMatchUpTo(g, newAdmin, g.nextId)
    ensures ZeroApproves(g', newAdmin) && NoMatchUpTo(g', newAdmin, g'.nextId)
  {
    hide VotesFor, VotesAgainst;
  }

  /** Wherever a direct rotation goes through under guardians and no role is on offer, it can be
      repeated once the role has been handed back: proposal 0 takes effect again a day later, by
      then below the cutoff. */
  lemma ZeroTakesEffectTwice(g: Gov, newAdmin: nat)
    requires Inv(g) && g.guardians != map[] && RotateDirectly(g, newAdmin, true).Ok?
    requires g.pending.None? && g.admin != g.contract && g.now + ADMIN_PROPOSAL_COOLDOWN_SECS <= U64_MAX
    ensures var ops := [DoRotate(newAdmin, true)] + HandBack(g.admin) + [DoRotate(newAdmin, true)];
            && Effects(g, ops, 0) == [g.now, g.now + ADMIN_PROPOSAL_COOLDOWN_SECS]
            && Run(g, ops).admin == newAdmin && 0 < Run(g, ops).cutoff
  {
    hide Approval, ZeroApproves, NoMatchUpTo, RotateDirectly, Execute, Inv, Step, TakesEffect;
    DirectRotationFacts(g, newAdmin);
    var admin, rotate := g.admin, DoRotate(newAdmin, true);
    var s1: seq<Op> := [rotate];
    var s2 := s1 + [DoPropose(admin)];
    var s3 := s2 + [Tick(ADMIN_PROPOSAL_COOLDOWN_SECS)];
    var s4 := s3 + [DoClaim(admin)];
    assert s1 == [] + [rotate];
    RunOneMore(g, [], rotate, 0);
    RunOneMore(g, s1, DoPropose(admin), 0);
    RunOneMore(g, s2, Tick(ADMIN_PROPOSAL_COOLDOWN_SECS), 0);
    RunOneMore(g, s3, DoClaim(admin), 0);
    RunOneMore(g, s4, rotate, 0);
    assert s4 + [rotate] == s1 + HandBack(admin) + [rotate];
    RotationOnZero(g, newAdmin);
    HandBackRuns(Run(g, s1), admin);
    RunInv(g, s4);
    StillApproves(g, Run(g, s4), newAdmin);
    RotationOnZero(Run(g, s4), newAdmin);
    OthersDoNotUse(Run(g, s1), DoPropose(admin));
    OthersDoNotUse(Run(g, s2), Tick(ADMIN_PROPOSAL_COOLDOWN_SECS));
    OthersDoNotUse(Run(g, s3), DoClaim(admin));
  }

  lemma OthersDoNotUse(g: Gov, op: Op)
    requires !op.DoExecute? && !op.DoRotate?
    ensures !TakesEffect(g, op, 0)
  {}

  lemma DirectRotationFacts(g: Gov, newAdmin: nat)
    requires Inv(g) && g.guardians != map[] && RotateDirectly(g, newAdmin, true).Ok?
    ensures g.nextId <= 9 && ZeroApproves(g, newAdmin) && NoMatchUpTo(g, newAdmin, g.nextId) && newAdmin != g.admin && newAdmin != g.contract
    ensures 0 < g.nextId
  {
    hide RotateDirectly, NoMatchUpTo;
    DirectRotationIff(g, newAdmin, true);
    assert ProposalOk(g, 0);
  }

  // ----- A run -----

  const START := Gov(0, 9, 1, map[1 := 1], map[], 0, 0, None, Settings(0, None, false, 1, None))

  /** Administrator 1 proposes a rotation to 2 and votes on it; the role is then offered to 3, who
      claims it two days later, when the eta is reached. */
  function Script(yes: bool): seq<Op> {
    [DoSubmit(RotateAdmin, 2, None, 0, BPS, MIN_TIMELOCK_DELAY), DoVote(0, yes), DoPropose(3), Tick(MIN_TIMELOCK_DELAY), DoClaim(3)]
  }

  function Reached(yes: bool): Gov {
    START.(now := MIN_TIMELOCK_DELAY, admin := 3, nextId := 1, cutoff := 1,
           proposals := map[0 := Proposal(RotateAdmin, 2, None, 0, BPS, map[1 := yes], MIN_TIMELOCK_DELAY, 0, false)])
  }

  function Submitted(votes: map<nat, bool>): Gov {
    START.(nextId := 1, proposals := map[0 := Proposal(RotateAdmin, 2, None, 0, BPS, votes, MIN_TIMELOCK_DELAY, 0, false)])
  }

  function Offered(yes: bool): Gov { Submitted(map[1 := yes]).(pending := Some(AdminProposal(3, 0, PROPOSAL_WINDOW_SECS))) }

  lemma ScriptSteps(yes: bool)
    ensures Step(START, DoSubmit(RotateAdmin, 2, None, 0, BPS, MIN_TIMELOCK_DELAY)) == Submitted(map[])
    ensures Step(Submitted(map[]), DoVote(0, yes)) == Submitted(map[1 := yes])
    ensures Step(Submitted(map[1 := yes]), DoPropose(3)) == Offered(yes)
    ensures Step(Offered(yes), Tick(MIN_TIMELOCK_DELAY)) == Offered(yes).(now := MIN_TIMELOCK_DELAY)
    ensures Step(Offered(yes).(now := MIN_TIMELOCK_DELAY), DoClaim(3)) == Reached(yes)
  {
    hide Execute, RotateDirectly;
  }

  lemma ScriptReaches(yes: bool)
    ensures Inv(START) && Run(START, Script(yes)) == Reached(yes)
  {
    hide Step, Effects, TakesEffect;
    var none: seq<Op> := [];
    var s1 := none + [DoSubmit(RotateAdmin, 2, None, 0, BPS, MIN_TIMELOCK_DELAY)];
    var s2 := s1 + [DoVote(0, yes)];
    var s3 := s2 + [DoPropose(3)];
    var s4 := s3 + [Tick(MIN_TIMELOCK_DELAY)];
    ScriptSteps(yes);
    RunOneMore(START, none, DoSubmit(RotateAdmin, 2, None, 0, BPS, MIN_TIMELOCK_DELAY), 0);
    RunOneMore(START, s1, DoVote(0, yes), 0);
    RunOneMore(START, s2, DoPropose(3), 0);
    RunOneMore(START, s3, Tick(MIN_TIMELOCK_DELAY), 0);
    RunOneMore(START, s4, DoClaim(3), 0);
    assert s4 + [DoClaim(3)] == Script(yes);
  }

  /** In that run the vote of administrator 1 decides whether administrator 3 can rotate directly,
      and if it was yes the rotation can be made twice. */
  lemma ReachedExample()
    ensures RotateDirectly(Run(START, Script(true)), 2, true).Ok?
    ensures RotateDirectly(Run(START, Script(false)), 2, true) == Err(MultiSigQuorumNotReached)
    ensures var ops := [DoRotate(2, true)] + HandBack(3) + [DoRotate(2, true)];
            |Effects(Run(START, Script(true)), ops, 0)| == 2
  {
    hide RotateDirectly, Effects, Step, Run;
    ScriptReaches(true);
    ScriptReaches(false);
    ReachedInv();
    EarlierVoteDecides(Reached(true), 2, 1);
    assert WithVote(Reached(true), 1, false) == Reached(false);
    ZeroTakesEffectTwice(Reached(true), 2);
  }

  lemma ReachedInv()
    ensures Inv(Reached(true))
  {
    assert ProposalOk(Reached(true), 0);
  }
}
