/** Proposals, weighted votes, the timelock, and the ways the administrator changes. The caller's
    authority and vote nonces are the host's and the nonce module's business. */
module Governance {
  import opened Base
  import opened Sums

  const MIN_TIMELOCK_DELAY: nat := 172_800
  const MIN_QUORUM_BPS: nat := 6_700
  const MAX_PROTOCOL_FEE_BIPS: nat := 500
  const PROPOSAL_WINDOW_SECS: nat := 604_800
  const ADMIN_PROPOSAL_COOLDOWN_SECS: nat := 86_400
  const BPS: nat := 10_000

  datatype Kind =
    | RotateAdmin | SetProtocolFee | UpgradeContract | EmergencyStop | RecoverStrandedFunds
    | AddAcceptedToken | RemoveAcceptedToken | SetDisputeWindow | SetOracleConfig

  datatype Proposal = Proposal(
    kind: Kind, target: nat, target2: Option<nat>, target3: nat, quorumBps: nat,
    votes: map<nat, bool>, eta: nat, submittedAt: nat, executed: bool)

  datatype AdminProposal = AdminProposal(newAdmin: nat, proposedAt: nat, expiresAt: nat)

  datatype Settings = Settings(feeBps: nat, treasury: Option<nat>, emergencyStop: bool, disputeWindow: nat, oracle: Option<nat>)

  datatype Gov = Gov(
    now: nat, contract: nat, admin: nat, guardians: map<nat, nat>, proposals: map<nat, Proposal>,
    nextId: nat, cutoff: nat, pending: Option<AdminProposal>, settings: Settings)

  // ----- Tally -----

  /** Weights of the current guardians that voted this way. */
  ghost function VoteWeights(votes: map<nat, bool>, guardians: map<nat, nat>, yes: bool): map<nat, int> {
    map g | g in votes && g in guardians && votes[g] == yes :: guardians[g]
  }

  ghost function AllWeights(guardians: map<nat, nat>): map<nat, int> {
    map g | g in guardians :: guardians[g]
  }

  /** A running u32 total that stops at its largest value. */
  ghost function Capped(x: int): int { Min(x, U32_MAX) }

  ghost function VotesFor(p: Proposal, guardians: map<nat, nat>): int { Capped(Sum(VoteWeights(p.votes, guardians, true))) }

  ghost function VotesAgainst(p: Proposal, guardians: map<nat, nat>): int { Capped(Sum(VoteWeights(p.votes, guardians, false))) }

  ghost function TotalWeight(guardians: map<nat, nat>): int { Capped(Sum(AllWeights(guardians))) }

  function EffectiveQuorum(quorumBps: nat): nat { if quorumBps >= MIN_QUORUM_BPS then quorumBps else MIN_QUORUM_BPS }

  function Threshold(total: int, quorumBps: nat): int
  {
    total * EffectiveQuorum(quorumBps) / BPS
  }

  // ----- Calls -----

  function ValidConfig(kind: Kind, target2: Option<nat>, target3: nat): Result<()> {
    match kind
    case SetProtocolFee => if target3 > MAX_PROTOCOL_FEE_BIPS then Err(ProtocolFeeTooHigh) else if target2.None? then Err(InvalidInput) else Ok(())
    case SetDisputeWindow => if target3 == 0 || target3 == U32_MAX then Err(InvalidInput) else Ok(())
    case _ => Ok(())
  }

  function Submit(g: Gov, kind: Kind, target: nat, target2: Option<nat>, target3: nat, quorumBps: nat, eta: nat): Result<Gov> {
    if quorumBps > BPS then Err(InvalidInput)
    else if ValidConfig(kind, target2, target3).Err? then Err(ValidConfig(kind, target2, target3).error)
    else if g.now + MIN_TIMELOCK_DELAY > U64_MAX then Err(Overflow)
    else if eta < g.now + MIN_TIMELOCK_DELAY then Err(InvalidInput)
    else if g.nextId + 1 > U64_MAX then Err(HostTrap)
    else
      var p := Proposal(kind, target, target2, target3, quorumBps, map[], eta, g.now, false);
      Ok(g.(proposals := g.proposals[g.nextId := p], nextId := g.nextId + 1))
  }

  /** Only the stored administrator can vote, and only as a guardian, before the timelock opens. */
  function Vote(g: Gov, id: nat, yes: bool): Result<Gov> {
    if g.admin !in g.guardians || g.guardians[g.admin] == 0 then Err(Unauthorized)
    else if id !in g.proposals then Err(NotFound)
    else if id < g.cutoff then Err(ProposalInvalidated)
    else
      var p := g.proposals[id];
      if p.executed || g.now >= p.eta then Err(InvalidInput)
      else Ok(g.(proposals := g.proposals[id := p.(votes := p.votes[g.admin := yes])]))
  }

  /** What an approved proposal does. */
  function Apply(g: Gov, p: Proposal): Result<Gov> {
    match p.kind
    case RotateAdmin => Ok(g.(admin := p.target, cutoff := g.nextId))
    case SetProtocolFee => Ok(g.(settings := g.settings.(feeBps := p.target3, treasury := if p.target2.Some? then p.target2 else g.settings.treasury)))
    case UpgradeContract => Err(InvalidInput)
    case EmergencyStop => Ok(g.(settings := g.settings.(emergencyStop := p.target3 != 0)))
    case RecoverStrandedFunds => Ok(g)
    case AddAcceptedToken => Ok(g)
    case RemoveAcceptedToken => Ok(g)
    case SetDisputeWindow => if p.target3 == 0 || p.target3 > U32_MAX then Err(InvalidInput) else Ok(g.(settings := g.settings.(disputeWindow := p.target3)))
    case SetOracleConfig => Ok(g.(settings := g.settings.(oracle := Some(p.target))))
  }

  ghost function Execute(g: Gov, id: nat): Result<Gov> {
    if id !in g.proposals then Err(NotFound)
    else if id < g.cutoff then Err(ProposalInvalidated)
    else
      var p := g.proposals[id];
      if p.executed then Err(InvalidInput)
      else if p.submittedAt + MIN_TIMELOCK_DELAY > U64_MAX then Err(Overflow)
      else if g.now < p.submittedAt + MIN_TIMELOCK_DELAY || g.now < p.eta then Err(InvalidInput)
      else if VotesFor(p, g.guardians) < Threshold(TotalWeight(g.guardians), p.quorumBps) then Err(InvalidInput)
      else
        match Apply(g, p)
        case Err(e) => Err(e)
        case Ok(g') => Ok(g'.(proposals := g'.proposals[id := p.(executed := true)]))
  }

  function CancelProposal(g: Gov, id: nat): Result<Gov> {
    if id !in g.proposals then Err(NotFound)
    else if g.proposals[id].executed then Err(InvalidInput)
    else Ok(g.(proposals := g.proposals[id := g.proposals[id].(executed := true)]))
  }

  function AddGuardian(g: Gov, who: nat, weight: nat): Result<Gov> {
    if weight == 0 || weight > U32_MAX then Err(InvalidInput) else Ok(g.(guardians := g.guardians[who := weight]))
  }

  function RemoveGuardian(g: Gov, who: nat): Gov { g.(guardians := g.guardians - {who}) }

  function ProposeAdmin(g: Gov, newAdmin: nat): Result<Gov> {
    if newAdmin == g.contract then Err(InvalidNewAdmin)
    else if g.pending.Some? && g.now <= g.pending.value.expiresAt then Err(ProposalAlreadyExists)
    else Ok(g.(pending := Some(AdminProposal(newAdmin, g.now, SaturatingAdd64(g.now, PROPOSAL_WINDOW_SECS)))))
  }

  function ClaimAdmin(g: Gov, claimant: nat): Result<Gov> {
    if g.pending.None? then Err(ProposalNotFound)
    else
      var p := g.pending.value;
      if claimant != p.newAdmin then Err(InvalidClaimant)
      else if g.now < SaturatingAdd64(p.proposedAt, ADMIN_PROPOSAL_COOLDOWN_SECS) then Err(ProposalCooldownActive)
      else if g.now > p.expiresAt then Err(ProposalExpired)
      else Ok(g.(pending := None, admin := claimant, cutoff := g.nextId))
  }

  function CancelAdminProposal(g: Gov): Result<Gov> {
    if g.pending.None? then Err(NoActiveProposal) else Ok(g.(pending := None))
  }

  predicate Matches(p: Proposal, newAdmin: nat) {
    p.kind == RotateAdmin && p.target == newAdmin && p.target2.None? && p.target3 == 0 && !p.executed
  }

  /** The proposal a direct rotation relies on, looked for among the ten ids from the next one
      down; with no guardians none is needed. The weight it is compared against is that of the
      votes against, as the contract has it. */
  ghost function Approval(g: Gov, newAdmin: nat, i: nat): Result<nat>
    decreases 10 - i
  {
    if g.guardians == map[] then Ok(0)
    else if i >= 10 || g.nextId < i then Err(MultiSigProposalNotFound)
    else
      var id := g.nextId - i;
      if id in g.proposals && Matches(g.proposals[id], newAdmin) then
        var p := g.proposals[id];
        if g.now < p.eta then Err(MultiSigProposalExpired)
        else if VotesFor(p, g.guardians) >= VotesAgainst(p, g.guardians) * p.quorumBps / BPS then Ok(id)
        else Err(MultiSigQuorumNotReached)
      else Approval(g, newAdmin, i + 1)
  }

  /** A direct rotation writes the new administrator and the cutoff before it consumes the
      proposal it relied on. */
  ghost function RotateDirectly(g: Gov, newAdmin: nat, cooldownOver: bool): Result<Gov> {
    if newAdmin == g.admin then Err(SelfRotation)
    else if newAdmin == g.contract then Err(InvalidNewAdmin)
    else
      match Approval(g, newAdmin, 0)
      case Err(e) => Err(e)
      case Ok(id) =>
        if !cooldownOver then Err(CooldownActive)
        else
          var rotated := g.(admin := newAdmin, cutoff := g.nextId);
          if id == 0 then Ok(rotated) else Execute(rotated, id)
  }

  // ----- Runs -----

  datatype Op =
    | Tick(seconds: nat)
    | DoSubmit(kind: Kind, target: nat, target2: Option<nat>, target3: nat, quorumBps: nat, eta: nat)
    | DoVote(id: nat, yes: bool)
    | DoExecute(id: nat)
    | DoCancel(id: nat)
    | DoAddGuardian(who: nat, weight: nat)
    | DoRemoveGuardian(who: nat)
    | DoPropose(newAdmin: nat)
    | DoClaim(claimant: nat)
    | DoCancelAdminProposal
    | DoRotate(newAdmin: nat, cooldownOver: bool)

  function Kept(g: Gov, r: Result<Gov>): Gov { if r.Ok? then r.value else g }

  ghost function Step(g: Gov, op: Op): Gov {
    match op
    case Tick(seconds) => g.(now := SaturatingAdd64(g.now, seconds))
    case DoSubmit(kind, target, target2, target3, quorumBps, eta) => Kept(g, Submit(g, kind, target, target2, target3, quorumBps, eta))
    case DoVote(id, yes) => Kept(g, Vote(g, id, yes))
    case DoExecute(id) => Kept(g, Execute(g, id))
    case DoCancel(id) => Kept(g, CancelProposal(g, id))
    case DoAddGuardian(who, weight) => Kept(g, AddGuardian(g, who, weight))
    case DoRemoveGuardian(who) => RemoveGuardian(g, who)
    case DoPropose(newAdmin) => Kept(g, ProposeAdmin(g, newAdmin))
    case DoClaim(claimant) => Kept(g, ClaimAdmin(g, claimant))
    case DoCancelAdminProposal => Kept(g, CancelAdminProposal(g))
    case DoRotate(newAdmin, cooldownOver) => Kept(g, RotateDirectly(g, newAdmin, cooldownOver))
  }

  ghost function Run(g: Gov, ops: seq<Op>): Gov {
    if ops == [] then g else Step(Run(g, ops[..|ops| - 1]), ops[|ops| - 1])
  }

  ghost predicate ProposalOk(g: Gov, id: nat)
    requires id in g.proposals
  {
    var p := g.proposals[id];
    && id < g.nextId
    && p.submittedAt <= g.now && p.submittedAt + MIN_TIMELOCK_DELAY <= p.eta && p.submittedAt + MIN_TIMELOCK_DELAY <= U64_MAX
    && p.quorumBps <= BPS
    && (id >= g.cutoff ==> p.votes.Keys <= {g.admin})
  }

  ghost predicate Inv(g: Gov) {
    && g.now <= U64_MAX
    && g.cutoff <= g.nextId
    && (forall id :: id in g.proposals ==> ProposalOk(g, id))
    && (forall who :: who in g.guardians ==> 0 < g.guardians[who] <= U32_MAX)
  }

  lemma ExecuteInv(g: Gov, id: nat)
    requires Inv(g) && Execute(g, id).Ok?
    ensures Inv(Execute(g, id).value)
  {
    hide Threshold, VotesFor, TotalWeight;
  }

  /** A proposal found by a direct rotation has been invalidated by the time it is consumed. */
  lemma RotateDirectlyInv(g: Gov, newAdmin: nat, cooldownOver: bool)
    requires Inv(g)
    ensures Inv(Kept(g, RotateDirectly(g, newAdmin, cooldownOver)))
  {
    hide Approval;
    if RotateDirectly(g, newAdmin, cooldownOver).Ok? { ApprovalBelowNext(g, newAdmin, 0); }
  }

  lemma {:induction false} ApprovalBelowNext(g: Gov, newAdmin: nat, i: nat)
    requires Inv(g) && Approval(g, newAdmin, i).Ok? && i <= 10
    ensures Approval(g, newAdmin, i).value == 0 || Approval(g, newAdmin, i).value < g.nextId
    decreases 10 - i
  {
    hide VotesFor, VotesAgainst;
    if g.guardians != map[] && i < 10 && g.nextId >= i && !(g.nextId - i in g.proposals && Matches(g.proposals[g.nextId - i], newAdmin)) {
      ApprovalBelowNext(g, newAdmin, i + 1);
    }
  }

  lemma StepInv(g: Gov, op: Op)
    requires Inv(g)
    ensures Inv(Step(g, op))
  {
    match op {
      case DoExecute(id) => hide Execute; if Execute(g, id).Ok? { ExecuteInv(g, id); }
      case DoRotate(newAdmin, cooldownOver) => hide RotateDirectly; RotateDirectlyInv(g, newAdmin, cooldownOver);
      case _ => hide Execute, RotateDirectly;
    }
  }

  /** In every reachable state: every vote that voting and execution can still count was cast by the
      current administrator. */
  lemma {:induction false} RunInv(g: Gov, ops: seq<Op>)
    requires Inv(g)
    ensures Inv(Run(g, ops))
  {
    hide Inv, Step;
    if ops != [] {
      RunInv(g, ops[..|ops| - 1]);
      StepInv(Run(g, ops[..|ops| - 1]), ops[|ops| - 1]);
    }
  }

  /** So a proposal that can be executed carries no vote but the current administrator's. */
  lemma OnlyCurrentAdminCounts(g: Gov, ops: seq<Op>, id: nat, who: nat)
    requires Inv(g) && id in Run(g, ops).proposals && id >= Run(g, ops).cutoff
    ensures who in Run(g, ops).proposals[id].votes ==> who == Run(g, ops).admin
  {
    hide Run;
    RunInv(g, ops);
    assert ProposalOk(Run(g, ops), id);
  }

  /** Whatever gives the contract another administrator closes every earlier proposal to voting
      and execution. A direct rotation does not look at the cutoff; see module Rotation. */
  lemma NewAdminStartsAfresh(g: Gov, op: Op, id: nat)
    requires Inv(g) && Step(g, op).admin != g.admin && id in g.proposals
    ensures id < Step(g, op).cutoff && Vote(Step(g, op), id, true).Err? && Execute(Step(g, op), id).Err?
  {
    hide Approval, VotesFor, Threshold, TotalWeight, VotesAgainst;
    assert ProposalOk(g, id);
  }

  // ----- Timelock -----

  predicate SameTerms(p: Proposal, p': Proposal) { p' == p.(votes := p'.votes, executed := p'.executed) }

  /** One call: a proposal keeps its terms, its votes change only before its eta, and it never
      becomes unexecuted. */
  lemma StepProposal(g: Gov, op: Op, id: nat)
    requires Inv(g) && id in g.proposals
    ensures id in Step(g, op).proposals
    ensures var p, p' := g.proposals[id], Step(g, op).proposals[id];
            && SameTerms(p, p')
            && (p.executed ==> p'.executed && p'.votes == p.votes)
            && (g.now >= p.eta ==> p'.votes == p.votes)
    ensures g.now <= Step(g, op).now
  {
    hide Approval, VotesFor, Threshold, TotalWeight, VotesAgainst, ValidConfig;
    assert ProposalOk(g, id);
    if op.DoRotate? && RotateDirectly(g, op.newAdmin, op.cooldownOver).Ok? { ApprovalBelowNext(g, op.newAdmin, 0); }
  }

  /** The vote map is frozen once the eta is reached. */
  lemma {:induction false} VotesFrozen(g: Gov, ops: seq<Op>, id: nat)
    requires Inv(g) && id in g.proposals && g.now >= g.proposals[id].eta
    ensures id in Run(g, ops).proposals && SameTerms(g.proposals[id], Run(g, ops).proposals[id])
    ensures Run(g, ops).proposals[id].votes == g.proposals[id].votes && g.now <= Run(g, ops).now
  {
    hide Inv, Step;
    if ops != [] {
      var n := |ops| - 1;
      VotesFrozen(g, ops[..n], id);
      RunInv(g, ops[..n]);
      StepProposal(Run(g, ops[..n]), ops[n], id);
    }
  }

  /** A call that acts on the authority of a proposal: its execution, or a direct rotation under
      guardians that was approved on the strength of it. */
  ghost predicate TakesEffect(g: Gov, op: Op, id: nat) {
    || (op == DoExecute(id) && Execute(g, id).Ok?)
    || (op.DoRotate? && g.guardians != map[] && Approval(g, op.newAdmin, 0) == Ok(id) && RotateDirectly(g, op.newAdmin, op.cooldownOver).Ok?)
  }

  /** The instants at which a proposal takes effect. */
  ghost function Effects(g: Gov, ops: seq<Op>, id: nat): seq<nat> {
    if ops == [] then []
    else
      var w := Run(g, ops[..|ops| - 1]);
      Effects(g, ops[..|ops| - 1], id) + (if TakesEffect(w, ops[|ops| - 1], id) then [w.now] else [])
  }

  /** An execution finds its proposal unexecuted and leaves it executed, two days or more after its
      submission and not before its eta. */
  lemma EffectOf(g: Gov, id: nat)
    requires Inv(g) && Execute(g, id).Ok?
    ensures id in g.proposals && !g.proposals[id].executed && g.cutoff <= id
    ensures g.proposals[id].submittedAt + MIN_TIMELOCK_DELAY <= g.proposals[id].eta <= g.now
    ensures id in Execute(g, id).value.proposals && Execute(g, id).value.proposals[id].executed
  {
    hide Threshold, VotesFor, TotalWeight;
    assert ProposalOk(g, id);
  }

  /** A direct rotation on a proposal other than 0 fails: the rotation has invalidated the proposal
      by the time it consumes it. So it only ever acts on proposal 0, after its eta. */
  lemma RotationUsesZero(g: Gov, newAdmin: nat, cooldownOver: bool, id: nat)
    requires Inv(g) && TakesEffect(g, DoRotate(newAdmin, cooldownOver), id)
    ensures id == 0
  {
    hide Approval;
    ApprovalBelowNext(g, newAdmin, 0);
  }

  /** Over the run no direct rotation is made while there are guardians. */
  ghost predicate NoDirectRotation(g: Gov, ops: seq<Op>) {
    ops != [] ==>
      && NoDirectRotation(g, ops[..|ops| - 1])
      && (ops[|ops| - 1].DoRotate? ==> Run(g, ops[..|ops| - 1]).guardians == map[])
  }

  /** Over any run a proposal other than 0 takes effect at most once, and never earlier than two
      days after it was submitted. Proposal 0 does so where no direct rotation is made under
      guardians. */
  lemma {:induction false} EffectAtMostOnce(g: Gov, ops: seq<Op>, id: nat)
    requires Inv(g) && id in g.proposals && (id == 0 ==> NoDirectRotation(g, ops))
    ensures id in Run(g, ops).proposals && SameTerms(g.proposals[id], Run(g, ops).proposals[id])
    ensures |Effects(g, ops, id)| <= (if g.proposals[id].executed then 0 else 1)
    ensures Effects(g, ops, id) != [] ==> Run(g, ops).proposals[id].executed
    ensures g.proposals[id].executed ==> Run(g, ops).proposals[id].executed
    ensures forall i :: 0 <= i < |Effects(g, ops, id)| ==> Effects(g, ops, id)[i] >= g.proposals[id].submittedAt + MIN_TIMELOCK_DELAY
  {
    hide Inv, Execute, Approval, RotateDirectly;
    if ops != [] {
      var n := |ops| - 1;
      var w := Run(g, ops[..n]);
      EffectAtMostOnce(g, ops[..n], id);
      RunInv(g, ops[..n]);
      StepProposal(w, ops[n], id);
      if TakesEffect(w, ops[n], id) {
        if ops[n].DoRotate? { RotationUsesZero(w, ops[n].newAdmin, ops[n].cooldownOver, id); }
        EffectOf(w, id);
      }
    }
  }

  // ----- Quorum -----

  /** The threshold is at most the total, so the cast to u32 loses nothing. */
  lemma ThresholdFits(total: nat, quorumBps: nat)
    requires total <= U32_MAX && quorumBps <= BPS
    ensures 0 <= Threshold(total, quorumBps) <= total
  {
    var q := EffectiveQuorum(quorumBps);
    assert total * q <= total * BPS;
    assert total * BPS / BPS == total;
  }

  /** Where only the administrator can have voted, execution rests on that one vote: it goes
      through only if the threshold is zero or the administrator, as a guardian with at least
      the threshold's weight, voted yes. */
  lemma ExecutionRestsOnAdmin(g: Gov, ops: seq<Op>, id: nat)
    requires Inv(g) && Execute(Run(g, ops), id).Ok?
    ensures id in Run(g, ops).proposals
    ensures var w, p := Run(g, ops), Run(g, ops).proposals[id];
            var needed := Threshold(TotalWeight(w.guardians), p.quorumBps);
            needed == 0 || (w.admin in p.votes && p.votes[w.admin] && w.admin in w.guardians && w.guardians[w.admin] >= needed)
  {
    hide Run, Threshold, Apply;
    RunInv(g, ops);
    var w := Run(g, ops);
    assert ProposalOk(w, id);
    SoleVoter(w.proposals[id].votes, w.guardians, w.admin, true);
    AllWeightsNonNegative(w.guardians);
    ThresholdFits(TotalWeight(w.guardians), w.proposals[id].quorumBps);
  }

  lemma AllWeightsNonNegative(guardians: map<nat, nat>)
    ensures 0 <= TotalWeight(guardians) <= U32_MAX
  {
    SumBounds(AllWeights(guardians));
  }

  lemma SoleVoter(votes: map<nat, bool>, guardians: map<nat, nat>, voter: nat, yes: bool)
    requires votes.Keys <= {voter}
    ensures Sum(VoteWeights(votes, guardians, yes)) == (if voter in votes && votes[voter] == yes && voter in guardians then guardians[voter] else 0)
  {
    var weights := VoteWeights(votes, guardians, yes);
    if voter in weights {
      SumSplit(weights, voter);
      assert weights - {voter} == map[];
    } else {
      assert weights == map[];
    }
  }

  // ----- Ways to change the administrator -----

  /** A claimed role was proposed at least a day and at most a week before. */
  lemma ClaimWindow(g: Gov, claimant: nat)
    requires g.pending.Some? && g.pending.value.proposedAt <= g.now <= U64_MAX
    requires g.pending.value.expiresAt == SaturatingAdd64(g.pending.value.proposedAt, PROPOSAL_WINDOW_SECS)
    ensures ClaimAdmin(g, claimant).Ok? <==>
              && claimant == g.pending.value.newAdmin
              && (g.now == U64_MAX || ADMIN_PROPOSAL_COOLDOWN_SECS <= g.now - g.pending.value.proposedAt)
              && g.now - g.pending.value.proposedAt <= PROPOSAL_WINDOW_SECS
  {}

  // ----- The contract object -----

  class Council {
    var now: nat
    const contract: nat
    var admin: nat
    var guardians: map<nat, nat>
    var proposals: map<nat, Proposal>
    var nextId: nat
    var cutoff: nat
    var pending: Option<AdminProposal>
    var settings: Settings

    ghost function State(): Gov
      reads this
    {
      Gov(now, contract, admin, guardians, proposals, nextId, cutoff, pending, settings)
    }

    constructor (g: Gov)
      ensures State() == g
    {
      now, contract, admin, guardians := g.now, g.contract, g.admin, g.guardians;
      proposals, nextId, cutoff, pending, settings := g.proposals, g.nextId, g.cutoff, g.pending, g.settings;
    }

    /** Adds weights in whatever order the map yields them; the order makes no difference. */
    method CalculateTotalWeight() returns (total: nat)
      ensures total == TotalWeight(guardians)
    {
      total := 0;
      var left := guardians.Keys;
      ghost var all := AllWeights(guardians);
      assert all - left == map[];
      while left != {}
        invariant left <= guardians.Keys && total == Capped(Sum(all - left))
        decreases |left|
      {
        var who :| who in left;
        SumSplit(all - (left - {who}), who);
        assert all - (left - {who}) - {who} == all - left;
        SumBounds(all - left);
        total := SaturatingAdd32(total, guardians[who]);
        left := left - {who};
      }
      assert all - left == all;
    }

    /** Counts only votes of current guardians. */
    method CalculateQuorum(p: Proposal) returns (votesFor: nat, votesAgainst: nat)
      ensures votesFor == VotesFor(p, guardians) && votesAgainst == VotesAgainst(p, guardians)
    {
      hide VoteWeights, Sum;
      votesFor, votesAgainst := 0, 0;
      var left := p.votes.Keys;
      NothingCounted(p.votes, guardians);
      while left != {}
        invariant left <= p.votes.Keys
        invariant votesFor == Capped(Counted(p.votes, guardians, true, left))
        invariant votesAgainst == Capped(Counted(p.votes, guardians, false, left))
        decreases |left|
      {
        var who :| who in left;
        CountOne(p.votes, guardians, left, who);
        if who in guardians {
          if p.votes[who] {
            votesFor := SaturatingAdd32(votesFor, guardians[who]);
          } else {
            votesAgainst := SaturatingAdd32(votesAgainst, guardians[who]);
          }
        }
        left := left - {who};
      }
      assert VoteWeights(p.votes, guardians, true) - left == VoteWeights(p.votes, guardians, true);
      assert VoteWeights(p.votes, guardians, false) - left == VoteWeights(p.votes, guardians, false);
    }

    method SubmitProposal(kind: Kind, target: nat, target2: Option<nat>, target3: nat, quorumBps: nat, eta: nat) returns (r: Result<nat>)
      modifies `proposals, `nextId
      ensures State() == Step(old(State()), DoSubmit(kind, target, target2, target3, quorumBps, eta))
      ensures r == (match Submit(old(State()), kind, target, target2, target3, quorumBps, eta) case Ok(_) => Ok(old(nextId)) case Err(e) => Err(e))
    {
      if quorumBps > BPS { return Err(InvalidInput); }
      var valid := ValidConfig(kind, target2, target3);
      if valid.Err? { return Err(valid.error); }
      if now + MIN_TIMELOCK_DELAY > U64_MAX { return Err(Overflow); }
      if eta < now + MIN_TIMELOCK_DELAY { return Err(InvalidInput); }
      var id := nextId;
      if id + 1 > U64_MAX { return Err(HostTrap); }
      nextId := id + 1;
      proposals := proposals[id := Proposal(kind, target, target2, target3, quorumBps, map[], eta, now, false)];
      return Ok(id);
    }

    method VoteProposal(id: nat, yes: bool) returns (r: Result<()>)
      modifies `proposals
      ensures State() == Step(old(State()), DoVote(id, yes))
      ensures r == (match Vote(old(State()), id, yes) case Ok(_) => Ok(()) case Err(e) => Err(e))
    {
      var weight := if admin in guardians then guardians[admin] else 0;
      if weight == 0 { return Err(Unauthorized); }
      if id !in proposals { return Err(NotFound); }
      if id < cutoff { return Err(ProposalInvalidated); }
      var p := proposals[id];
      if p.executed { return Err(InvalidInput); }
      if now >= p.eta { return Err(InvalidInput); }
      proposals := proposals[id := p.(votes := p.votes[admin := yes])];
      return Ok(());
    }

    method ExecuteProposal(id: nat) returns (r: Result<()>)
      modifies `proposals, `admin, `cutoff, `settings
      ensures State() == Step(old(State()), DoExecute(id))
      ensures r == (match Execute(old(State()), id) case Ok(_) => Ok(()) case Err(e) => Err(e))
    {
      hide VotesFor, VotesAgainst, TotalWeight;
      if id !in proposals { return Err(NotFound); }
      if id < cutoff { return Err(ProposalInvalidated); }
      var p := proposals[id];
      if p.executed { return Err(InvalidInput); }
      if p.submittedAt + MIN_TIMELOCK_DELAY > U64_MAX { return Err(Overflow); }
      if now < p.submittedAt + MIN_TIMELOCK_DELAY { return Err(InvalidInput); }
      if now < p.eta { return Err(InvalidInput); }
      var votesFor, votesAgainst := CalculateQuorum(p);
      var total := CalculateTotalWeight();
      if votesFor < Threshold(total, p.quorumBps) { return Err(InvalidInput); }
      match p.kind {
        case RotateAdmin =>
          admin := p.target;
          InvalidatePendingProposals();
        case SetProtocolFee =>
          settings := settings.(feeBps := p.target3);
          if p.target2.Some? { settings := settings.(treasury := p.target2); }
        case UpgradeContract => return Err(InvalidInput);
        case EmergencyStop => settings := settings.(emergencyStop := p.target3 != 0);
        case RecoverStrandedFunds =>
        case AddAcceptedToken =>
        case RemoveAcceptedToken =>
        case SetDisputeWindow =>
          if p.target3 == 0 || p.target3 > U32_MAX { return Err(InvalidInput); }
          settings := settings.(disputeWindow := p.target3);
        case SetOracleConfig => settings := settings.(oracle := Some(p.target));
      }
      proposals := proposals[id := p.(executed := true)];
      return Ok(());
    }

    /** One write invalidates any number of proposals. */
    method InvalidatePendingProposals()
      modifies `cutoff
      ensures cutoff == nextId
    {
      cutoff := nextId;
    }

    /** Looks through the ten ids from the next one down for a proposal of this rotation. */
    method RequireApproval(newAdmin: nat) returns (r: Result<nat>)
      ensures r == Approval(State(), newAdmin, 0)
    {
      if guardians == map[] { return Ok(0); }
      var i := 0;
      while i < 10
        invariant 0 <= i <= 10 && Approval(State(), newAdmin, 0) == Approval(State(), newAdmin, i)
      {
        if nextId < i { return Err(MultiSigProposalNotFound); }
        var id := nextId - i;
        if id in proposals && Matches(proposals[id], newAdmin) {
          var p := proposals[id];
          if now < p.eta { return Err(MultiSigProposalExpired); }
          var votesFor, votesAgainst := CalculateQuorum(p);
          if votesFor >= votesAgainst * p.quorumBps / BPS { return Ok(id); }
          return Err(MultiSigQuorumNotReached);
        }
        i := i + 1;
      }
      return Err(MultiSigProposalNotFound);
    }

    /** Writes the new administrator and the cutoff, then consumes the proposal; a refusal there
        is rolled back by the host. */
    method RotateAdmin(newAdmin: nat, cooldownOver: bool) returns (r: Result<()>)
      modifies `proposals, `admin, `cutoff, `settings
      ensures State() == Step(old(State()), DoRotate(newAdmin, cooldownOver))
      ensures r == (match RotateDirectly(old(State()), newAdmin, cooldownOver) case Ok(_) => Ok(()) case Err(e) => Err(e))
    {
      hide Approval, Execute, VotesFor, VotesAgainst, TotalWeight;
      if newAdmin == admin { return Err(SelfRotation); }
      if newAdmin == contract { return Err(InvalidNewAdmin); }
      var approved := RequireApproval(newAdmin);
      if approved.Err? { return Err(approved.error); }
      if !cooldownOver { return Err(CooldownActive); }
      var oldAdmin, oldCutoff := admin, cutoff;
      admin := newAdmin;
      InvalidatePendingProposals();
      if approved.value != 0 {
        r := ExecuteProposal(approved.value);
        if r.Err? { admin, cutoff := oldAdmin, oldCutoff; }
      } else {
        r := Ok(());
      }
    }

    method ClaimAdminRole(claimant: nat) returns (r: Result<()>)
      modifies `pending, `admin, `cutoff
      ensures State() == Step(old(State()), DoClaim(claimant))
      ensures r == (match ClaimAdmin(old(State()), claimant) case Ok(_) => Ok(()) case Err(e) => Err(e))
    {
      if pending.None? { return Err(ProposalNotFound); }
      if claimant != pending.value.newAdmin { return Err(InvalidClaimant); }
      if now < SaturatingAdd64(pending.value.proposedAt, ADMIN_PROPOSAL_COOLDOWN_SECS) { return Err(ProposalCooldownActive); }
      if now > pending.value.expiresAt { return Err(ProposalExpired); }
      pending := None;
      admin := claimant;
      InvalidatePendingProposals();
      return Ok(());
    }
  }

  /** The weight of the votes this way, all but those still left to look at. */
  ghost function Counted(votes: map<nat, bool>, guardians: map<nat, nat>, yes: bool, left: set<nat>): int {
    Sum(VoteWeights(votes, guardians, yes) - left)
  }

  lemma NothingCounted(votes: map<nat, bool>, guardians: map<nat, nat>)
    ensures Counted(votes, guardians, true, votes.Keys) == 0 && Counted(votes, guardians, false, votes.Keys) == 0
  {
    assert VoteWeights(votes, guardians, true) - votes.Keys == map[];
    assert VoteWeights(votes, guardians, false) - votes.Keys == map[];
  }

  lemma CountOne(votes: map<nat, bool>, guardians: map<nat, nat>, left: set<nat>, who: nat)
    requires left <= votes.Keys && who in left
    ensures Counted(votes, guardians, true, left - {who}) == Counted(votes, guardians, true, left) + (if votes[who] && who in guardians then guardians[who] else 0)
    ensures Counted(votes, guardians, false, left - {who}) == Counted(votes, guardians, false, left) + (if !votes[who] && who in guardians then guardians[who] else 0)
    ensures Counted(votes, guardians, true, left) >= 0 && Counted(votes, guardians, false, left) >= 0
  {
    TallyOne(VoteWeights(votes, guardians, true), left, who);
    TallyOne(VoteWeights(votes, guardians, false), left, who);
  }

  lemma TallyOne(weights: map<nat, int>, left: set<nat>, who: nat)
    requires who in left && forall k :: k in weights ==> weights[k] >= 0
    ensures Sum(weights - (left - {who})) == Sum(weights - left) + (if who in weights then weights[who] else 0)
    ensures Sum(weights - left) >= 0
  {
    SumBounds(weights - left);
    if who in weights {
      SumSplit(weights - (left - {who}), who);
      assert weights - (left - {who}) - {who} == weights - left;
    } else {
      assert weights - (left - {who}) == weights - left;
    }
  }
}
