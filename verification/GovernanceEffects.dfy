/** When each governance call goes through, and what it changes then. */
module GovernanceEffects {
  import opened Base
  import opened Governance

  // ----- Proposals -----

  /** What a kind of proposal asks of its parameters. */
  predicate ParametersAllowed(kind: Kind, target2: Option<nat>, target3: nat) {
    && (kind == SetProtocolFee ==> target3 <= 500 && target2.Some?)
    && (kind == SetDisputeWindow ==> target3 != 0 && target3 != 0xFFFF_FFFF)
  }

  /** A proposal is taken with a quorum of at most the whole, allowed parameters and an eta two days
      ahead or later; it is stored without votes under the next id. */
  lemma SubmissionStores(g: Gov, kind: Kind, target: nat, target2: Option<nat>, target3: nat, quorumBps: nat, eta: nat)
    ensures var r := Submit(g, kind, target, target2, target3, quorumBps, eta);
            && (r.Ok? <==> quorumBps <= 10_000 && ParametersAllowed(kind, target2, target3) && g.now + 172_800 <= Min(eta, U64_MAX) && g.nextId < U64_MAX)
            && (r.Ok? ==> r.value == g.(proposals := g.proposals[g.nextId := Proposal(kind, target, target2, target3, quorumBps, map[], eta, g.now, false)],
                                        nextId := g.nextId + 1))
  {}

  /** The administrator votes as a guardian with weight, on a proposal that is neither invalidated nor
      executed and whose eta lies ahead; the vote replaces an earlier one and nothing else changes. */
  lemma VoteCounts(g: Gov, id: nat, yes: bool)
    ensures var r := Vote(g, id, yes);
            && (r.Ok? <==>
                  && g.admin in g.guardians && g.guardians[g.admin] > 0
                  && id in g.proposals && id >= g.cutoff && !g.proposals[id].executed && g.now < g.proposals[id].eta)
            && (r.Ok? ==>
                  && id in r.value.proposals
                  && SameTerms(g.proposals[id], r.value.proposals[id]) && !r.value.proposals[id].executed
                  && r.value.proposals[id].votes == g.proposals[id].votes[g.admin := yes]
                  && r.value == g.(proposals := g.proposals[id := r.value.proposals[id]]))
  {}

  /** The proposal has been approved and its time has come. */
  ghost predicate Ready(g: Gov, id: nat) {
    && id in g.proposals && id >= g.cutoff
    && var p := g.proposals[id];
       && !p.executed
       && p.submittedAt + 172_800 <= Min(g.now, U64_MAX) && p.eta <= g.now
       && VotesFor(p, g.guardians) >= TotalWeight(g.guardians) * Max(p.quorumBps, 6_700) / 10_000
  }

  /** The settings after a proposal: the one it names has the proposal's value, the others stay. */
  function After(p: Proposal, s: Settings): Settings {
    Settings(if p.kind == SetProtocolFee then p.target3 else s.feeBps,
             if p.kind == SetProtocolFee && p.target2.Some? then p.target2 else s.treasury,
             if p.kind == EmergencyStop then p.target3 != 0 else s.emergencyStop,
             if p.kind == SetDisputeWindow then p.target3 else s.disputeWindow,
             if p.kind == SetOracleConfig then Some(p.target) else s.oracle)
  }

  /** An approved proposal executes unless it is for an upgrade or a dispute window out of range, and
      does what it says: a rotation makes its target the administrator and invalidates all proposals
      so far, a setting gets the proposal's value, and whatever is not named, as with the kinds left
      to the caller, stays. */
  lemma ExecutionDoes(g: Gov, id: nat)
    ensures Execute(g, id).Ok? <==>
              && Ready(g, id) && g.proposals[id].kind != UpgradeContract
              && (g.proposals[id].kind == SetDisputeWindow ==> 0 < g.proposals[id].target3 <= 0xFFFF_FFFF)
    ensures Execute(g, id).Ok? ==>
              var p, g' := g.proposals[id], Execute(g, id).value;
              && g'.admin == (if p.kind == RotateAdmin then p.target else g.admin)
              && g'.cutoff == (if p.kind == RotateAdmin then g.nextId else g.cutoff)
              && g'.settings == After(p, g.settings)
              && g'.proposals == g.proposals[id := Proposal(p.kind, p.target, p.target2, p.target3, p.quorumBps, p.votes, p.eta, p.submittedAt, true)]
              && g' == g.(admin := g'.admin, cutoff := g'.cutoff, settings := g'.settings, proposals := g'.proposals)
  {
    hide VotesFor, TotalWeight;
  }

  /** Cancelling marks a proposal that is not yet executed as executed, with no other effect. */
  lemma CancellationMarks(g: Gov, id: nat)
    ensures CancelProposal(g, id).Ok? <==> id in g.proposals && !g.proposals[id].executed
    ensures CancelProposal(g, id).Ok? ==>
              var g' := CancelProposal(g, id).value;
              && id in g'.proposals && g'.proposals[id].executed && g'.proposals[id].votes == g.proposals[id].votes
              && SameTerms(g.proposals[id], g'.proposals[id]) && g' == g.(proposals := g.proposals[id := g'.proposals[id]])
    ensures CancelProposal(g, id).Ok? ==> Execute(CancelProposal(g, id).value, id).Err? && forall yes :: Vote(CancelProposal(g, id).value, id, yes).Err?
  {
    hide VotesFor, TotalWeight;
  }

  // ----- Guardians and administrator -----

  /** Guardians come with a positive weight within u32 and go without a trace. */
  lemma GuardiansChange(g: Gov, who: nat, weight: nat)
    ensures AddGuardian(g, who, weight).Ok? <==> 0 < weight <= 0xFFFF_FFFF
    ensures AddGuardian(g, who, weight).Ok? ==>
              var g' := AddGuardian(g, who, weight).value;
              g'.guardians == g.guardians[who := weight] && g' == g.(guardians := g'.guardians)
    ensures var g' := RemoveGuardian(g, who);
            && who !in g'.guardians && (forall x :: x != who ==> (x in g'.guardians <==> x in g.guardians))
            && (forall x :: x in g'.guardians ==> g'.guardians[x] == g.guardians[x]) && g' == g.(guardians := g'.guardians)
  {}

  /** The role is offered to anybody but the contract while no offer is open, for a week; the offer
      can be withdrawn, and claiming it makes the claimant the administrator, closes the offer and
      invalidates all proposals so far. */
  lemma OfferAndClaim(g: Gov, who: nat)
    ensures ProposeAdmin(g, who).Ok? <==> who != g.contract && (g.pending.Some? ==> g.now > g.pending.value.expiresAt)
    ensures ProposeAdmin(g, who).Ok? ==> ProposeAdmin(g, who).value == g.(pending := Some(AdminProposal(who, g.now, Min(g.now + 604_800, U64_MAX))))
    ensures CancelAdminProposal(g).Ok? <==> g.pending.Some?
    ensures CancelAdminProposal(g).Ok? ==> CancelAdminProposal(g).value == g.(pending := None)
    ensures ClaimAdmin(g, who).Ok? <==>
              && g.pending.Some? && who == g.pending.value.newAdmin
              && Min(g.pending.value.proposedAt + 86_400, U64_MAX) <= g.now <= g.pending.value.expiresAt
    ensures ClaimAdmin(g, who).Ok? ==> ClaimAdmin(g, who).value == g.(pending := None, admin := who, cutoff := g.nextId)
  {}

  /** A direct rotation that goes through makes the new address the administrator, invalidates all
      proposals so far and changes nothing else. */
  lemma DirectRotationDoes(g: Gov, newAdmin: nat, cooldownOver: bool)
    requires Inv(g) && RotateDirectly(g, newAdmin, cooldownOver).Ok?
    ensures newAdmin != g.admin && newAdmin != g.contract && cooldownOver
    ensures RotateDirectly(g, newAdmin, cooldownOver).value == g.(admin := newAdmin, cutoff := g.nextId)
  {
    hide Approval, VotesFor, TotalWeight;
    ApprovalBelowNext(g, newAdmin, 0);
  }

  // ----- Runs -----

  /** The settings change only by an executed proposal and then follow it; so at the end of any run
      each setting is the last executed proposal's value for it, or what it was. */
  lemma {:induction false} SettingsFollowExecutions(g: Gov, ops: seq<Op>)
    requires Inv(g)
    ensures Run(g, ops).settings == Followed(g, ops)
  {
    hide Inv, Step, Execute;
    if ops != [] {
      var n := |ops| - 1;
      SettingsFollowExecutions(g, ops[..n]);
      RunInv(g, ops[..n]);
      StepSettings(Run(g, ops[..n]), ops[n]);
    }
  }

  /** The settings of a run, from its executed proposals alone. */
  ghost function Followed(g: Gov, ops: seq<Op>): Settings {
    if ops == [] then g.settings
    else
      var w, op, s := Run(g, ops[..|ops| - 1]), ops[|ops| - 1], Followed(g, ops[..|ops| - 1]);
      if op.DoExecute? && Execute(w, op.id).Ok? then After(w.proposals[op.id], s) else s
  }

  lemma StepSettings(g: Gov, op: Op)
    requires Inv(g)
    ensures Step(g, op).settings == if op.DoExecute? && Execute(g, op.id).Ok? then After(g.proposals[op.id], g.settings) else g.settings
  {
    match op {
      case DoExecute(id) =>
        hide Execute, Inv;
        ExecutionDoes(g, id);
      case DoRotate(newAdmin, cooldownOver) =>
        hide RotateDirectly, Inv;
        if RotateDirectly(g, newAdmin, cooldownOver).Ok? { DirectRotationDoes(g, newAdmin, cooldownOver); }
      case _ => hide Execute, RotateDirectly;
    }
  }
}
