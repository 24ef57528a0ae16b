/** What the tally of a proposal can say: when votes for and against stay within the total weight,
    and when both sides can reach the threshold. Weights are summed in u32 counters that stop at
    their largest value. The first part is about the tally of arbitrary vote maps, the last about
    the proposals that runs produce, which carry at most one vote. */
module Quorum {
  import opened Base
  import opened Sums
  import opened Governance

  /** Guardians' weights as the contract admits them. */
  predicate Weighted(guardians: map<nat, nat>) { forall g :: g in guardians ==> 0 < guardians[g] <= U32_MAX }

  ghost function SumOf(guardians: map<nat, nat>): int { Sum(AllWeights(guardians)) }

  // ----- Votes and the guardians who cast them -----

  /** The weights of some of the guardians. */
  ghost function Part(guardians: map<nat, nat>, some: set<nat>): map<nat, int> {
    map g | g in guardians && g in some :: guardians[g]
  }

  ghost function Weight(guardians: map<nat, nat>, some: set<nat>): int { Sum(Part(guardians, some)) }

  lemma {:induction false} SumSubmap(a: map<nat, int>, b: map<nat, int>)
    requires forall k :: k in a ==> k in b && a[k] == b[k]
    requires forall k :: k in b ==> b[k] >= 0
    ensures 0 <= Sum(a) <= Sum(b)
    decreases |b|
  {
    if b == map[] {
      assert a == map[];
    } else {
      var k :| k in b;
      SumSplit(b, k);
      SumRemove(a, k);
      SumSubmap(a - {k}, b - {k});
    }
  }

  lemma {:induction false} SumJoin(a: map<nat, int>, b: map<nat, int>)
    requires a.Keys !! b.Keys
    ensures Sum(a + b) == Sum(a) + Sum(b)
    decreases |a|
  {
    if a == map[] {
      assert a + b == b;
    } else {
      var k :| k in a;
      SumJoin(a - {k}, b);
      JoinStep(a, b, k);
      SumSplit(a, k);
      SumSplit(a + b, k);
    }
  }

  lemma JoinStep(a: map<nat, int>, b: map<nat, int>, k: nat)
    requires k in a && k !in b
    ensures (a + b)[k] == a[k] && a + b - {k} == (a - {k}) + b
  {}

  /** Some guardians and the rest together have the whole weight. */
  lemma WeightJoin(guardians: map<nat, nat>, some: set<nat>)
    ensures Weight(guardians, some) + Weight(guardians, guardians.Keys - some) == SumOf(guardians)
    ensures Weight(guardians, some) >= 0 && Weight(guardians, guardians.Keys - some) >= 0
  {
    var yes, no := Part(guardians, some), Part(guardians, guardians.Keys - some);
    assert yes + no == AllWeights(guardians);
    SumJoin(yes, no);
    SumBounds(yes);
    SumBounds(no);
  }

  /** The votes in which exactly these guardians say yes and all others no. */
  function Ballot(guardians: map<nat, nat>, some: set<nat>): map<nat, bool> { map g | g in guardians :: g in some }

  lemma BallotTally(p: Proposal, guardians: map<nat, nat>, some: set<nat>)
    requires p.votes == Ballot(guardians, some)
    ensures VotesFor(p, guardians) == Capped(Weight(guardians, some))
    ensures VotesAgainst(p, guardians) == Capped(Weight(guardians, guardians.Keys - some))
  {
    assert VoteWeights(p.votes, guardians, true) == Part(guardians, some);
    assert VoteWeights(p.votes, guardians, false) == Part(guardians, guardians.Keys - some);
  }

  ghost function YesVoters(p: Proposal, guardians: map<nat, nat>): set<nat> { set g | g in guardians && g in p.votes && p.votes[g] }

  /** Any votes at all: the yes side is what it is, the no side at most the rest. */
  lemma TallyIsSplit(p: Proposal, guardians: map<nat, nat>)
    ensures VotesFor(p, guardians) == Capped(Weight(guardians, YesVoters(p, guardians)))
    ensures VotesAgainst(p, guardians) <= Capped(Weight(guardians, guardians.Keys - YesVoters(p, guardians)))
  {
    var yes := YesVoters(p, guardians);
    assert VoteWeights(p.votes, guardians, true) == Part(guardians, yes);
    SumSubmap(VoteWeights(p.votes, guardians, false), Part(guardians, guardians.Keys - yes));
  }

  function Proposed(quorumBps: nat, votes: map<nat, bool>): Proposal {
    Proposal(RotateAdmin, 0, None, 0, quorumBps, votes, 0, 0, false)
  }

  // ----- Votes within the total -----

  /** Whatever the votes, both sides together stay within the total weight if and only if the
      weights add up within u32, so that the total is not cut off. */
  lemma TallyWithinTotalIff(guardians: map<nat, nat>)
    requires Weighted(guardians)
    ensures (forall p: Proposal :: VotesFor(p, guardians) + VotesAgainst(p, guardians) <= TotalWeight(guardians)) <==> SumOf(guardians) <= U32_MAX
  {
    hide VotesFor, VotesAgainst, Sum;
    if SumOf(guardians) <= U32_MAX {
      forall p: Proposal ensures VotesFor(p, guardians) + VotesAgainst(p, guardians) <= TotalWeight(guardians) {
        TallyIsSplit(p, guardians);
        WeightJoin(guardians, YesVoters(p, guardians));
      }
    } else {
      assert guardians != map[] by { if guardians == map[] { EmptySum(guardians); } }
      var k :| k in guardians;
      var p := Proposed(0, Ballot(guardians, guardians.Keys - {k}));
      BallotTally(p, guardians, guardians.Keys - {k});
      WeightJoin(guardians, guardians.Keys - {k});
      SingleWeight(guardians, k);
      assert VotesFor(p, guardians) + VotesAgainst(p, guardians) > TotalWeight(guardians);
    }
  }

  lemma EmptySum(guardians: map<nat, nat>)
    requires guardians == map[]
    ensures SumOf(guardians) == 0
  {
    assert AllWeights(guardians) == map[];
  }

  lemma SingleWeight(guardians: map<nat, nat>, k: nat)
    requires k in guardians
    ensures Weight(guardians, guardians.Keys - (guardians.Keys - {k})) == guardians[k] == Weight(guardians, {k})
  {
    assert guardians.Keys - (guardians.Keys - {k}) == {k};
    SumSplit(Part(guardians, {k}), k);
    assert Part(guardians, {k}) - {k} == map[];
  }

  // ----- Both sides at the threshold -----

  ghost function Needed(guardians: map<nat, nat>, quorumBps: nat): int { Threshold(TotalWeight(guardians), quorumBps) }

  /** Votes for reach the threshold of execution, and so do the votes against. */
  ghost predicate BothReach(p: Proposal, guardians: map<nat, nat>) {
    && VotesFor(p, guardians) >= Needed(guardians, p.quorumBps)
    && VotesAgainst(p, guardians) >= Needed(guardians, p.quorumBps)
  }

  ghost predicate Divides(guardians: map<nat, nat>, some: set<nat>, needed: int) {
    Weight(guardians, some) >= needed && Weight(guardians, guardians.Keys - some) >= needed
  }

  /** For some votes both sides reach the threshold if and only if the guardians can be divided
      into two groups that each have the weight needed, cut-off totals included. */
  lemma BothSidesSplitIff(guardians: map<nat, nat>, quorumBps: nat)
    requires Weighted(guardians) && quorumBps <= BPS
    ensures (exists p: Proposal :: p.quorumBps == quorumBps && BothReach(p, guardians)) <==> (exists some :: Divides(guardians, some, Needed(guardians, quorumBps)))
  {
    hide VotesFor, VotesAgainst, Weight;
    var needed := Needed(guardians, quorumBps);
    NeededFits(guardians, quorumBps);
    if exists p: Proposal :: p.quorumBps == quorumBps && BothReach(p, guardians) {
      var p: Proposal :| p.quorumBps == quorumBps && BothReach(p, guardians);
      TallyIsSplit(p, guardians);
      assert Divides(guardians, YesVoters(p, guardians), needed);
    }
    if some :| Divides(guardians, some, needed) {
      var p := Proposed(quorumBps, Ballot(guardians, some));
      BallotTally(p, guardians, some);
      assert BothReach(p, guardians);
    }
  }

  lemma NeededFits(guardians: map<nat, nat>, quorumBps: nat)
    requires quorumBps <= BPS
    ensures 0 <= Needed(guardians, quorumBps) <= TotalWeight(guardians) <= U32_MAX
  {
    AllWeightsNonNegative(guardians);
    ThresholdFits(TotalWeight(guardians), quorumBps);
  }

  /** From a total weight of five on, no votes on any proposal let both sides through, unless the
      total is cut off. */
  lemma NeverBothFromFive(p: Proposal, guardians: map<nat, nat>)
    requires 5 <= SumOf(guardians) <= U32_MAX
    ensures !BothReach(p, guardians)
  {
    hide VotesFor, VotesAgainst, Threshold;
    TallyIsSplit(p, guardians);
    WeightJoin(guardians, YesVoters(p, guardians));
    TwoThirdsTwice(TotalWeight(guardians), p.quorumBps);
  }

  lemma TwoThirdsTwice(total: nat, quorumBps: nat)
    requires total >= 5
    ensures 2 * Threshold(total, quorumBps) > total
  {
    var q := EffectiveQuorum(quorumBps);
    ProductGrows(total, MIN_QUORUM_BPS, q);
    assert 2 * (total * MIN_QUORUM_BPS / BPS) > total by {
      assert total * MIN_QUORUM_BPS / BPS * BPS > total * MIN_QUORUM_BPS - BPS;
    }
  }

  lemma ProductGrows(total: nat, q: nat, q': nat)
    requires q <= q'
    ensures total * q / BPS <= total * q' / BPS
  {
    assert total * q <= total * q';
    QuotientGrows(total * q, total * q');
  }

  lemma QuotientGrows(a: int, b: int)
    requires a <= b
    ensures a / BPS <= b / BPS
  {}

  lemma MemberWeight(guardians: map<nat, nat>, some: set<nat>, g: nat)
    requires g in guardians && g in some
    ensures guardians[g] <= Weight(guardians, some)
  {
    SumBounds(Part(guardians, some));
    assert Part(guardians, some)[g] == guardians[g];
  }

  lemma PairWeight(guardians: map<nat, nat>, g: nat, h: nat)
    requires g in guardians && h in guardians && g != h
    ensures Weight(guardians, {g, h}) == guardians[g] + guardians[h]
  {
    SumSplit(Part(guardians, {g, h}), g);
    assert Part(guardians, {g, h}) - {g} == Part(guardians, {h});
    SingleWeight(guardians, h);
  }

  /** A division leaves every guardian within what the other group does not need. */
  lemma DividedWeights(guardians: map<nat, nat>, some: set<nat>, needed: int, g: nat)
    requires Divides(guardians, some, needed) && g in guardians
    ensures guardians[g] <= SumOf(guardians) - needed
  {
    hide Weight;
    WeightJoin(guardians, some);
    if g in some { MemberWeight(guardians, some, g); } else { MemberWeight(guardians, guardians.Keys - some, g); }
  }

  /** A total of four is divided by one guardian of weight two or by two of weight one. */
  lemma DivideFour(guardians: map<nat, nat>)
    requires Weighted(guardians) && SumOf(guardians) == 4 && forall g :: g in guardians ==> guardians[g] <= 2
    ensures exists some :: Divides(guardians, some, 2)
  {
    hide Weight;
    if guardians == map[] { EmptySum(guardians); }
    var g :| g in guardians;
    SingleWeight(guardians, g);
    WeightJoin(guardians, {g});
    if guardians[g] == 2 {
      assert Divides(guardians, {g}, 2);
    } else {
      if forall h :: h in guardians ==> h == g { assert guardians.Keys - {g} == {}; NobodyWeighs(guardians); assert false; }
      var h :| h in guardians && h != g;
      SingleWeight(guardians, h);
      WeightJoin(guardians, {h});
      PairWeight(guardians, g, h);
      WeightJoin(guardians, {g, h});
      assert Divides(guardians, if guardians[h] == 2 then {h} else {g, h}, 2);
    }
  }

  lemma NobodyWeighs(guardians: map<nat, nat>)
    ensures Weight(guardians, {}) == 0
  {
    assert Part(guardians, {}) == map[];
  }

  lemma DivideByOne(guardians: map<nat, nat>)
    requires Weighted(guardians) && SumOf(guardians) >= 2 && forall g :: g in guardians ==> guardians[g] <= SumOf(guardians) - 1
    ensures exists some :: Divides(guardians, some, 1)
  {
    hide Weight;
    if guardians == map[] { EmptySum(guardians); }
    var g :| g in guardians;
    SingleWeight(guardians, g);
    WeightJoin(guardians, {g});
    assert Divides(guardians, {g}, 1);
  }

  /** Where the total is not cut off, both sides reach the threshold for some votes if and only if
      the threshold is zero, or is at most half the total with no guardian weighing more than the
      total less the threshold. */
  lemma BothSidesReachIff(guardians: map<nat, nat>, quorumBps: nat)
    requires Weighted(guardians) && quorumBps <= BPS && SumOf(guardians) <= U32_MAX
    ensures var needed, total := Needed(guardians, quorumBps), TotalWeight(guardians);
            (exists p: Proposal :: p.quorumBps == quorumBps && BothReach(p, guardians)) <==>
              needed == 0 || (2 * needed <= total && forall g :: g in guardians ==> guardians[g] <= total - needed)
  {
    hide VotesFor, VotesAgainst, Threshold, Weight;
    var needed, total := Needed(guardians, quorumBps), TotalWeight(guardians);
    NeededFits(guardians, quorumBps);
    WholeWeight(guardians);
    BothSidesSplitIff(guardians, quorumBps);
    if some :| Divides(guardians, some, needed) {
      WeightJoin(guardians, some);
      forall g | g in guardians ensures guardians[g] <= total - needed { DividedWeights(guardians, some, needed, g); }
    }
    if needed == 0 {
      WeightJoin(guardians, {});
      assert Divides(guardians, {}, needed);
    } else if 2 * needed <= total && forall g :: g in guardians ==> guardians[g] <= total - needed {
      if total >= 5 { TwoThirdsTwice(total, quorumBps); assert false; }
      if needed == 1 { DivideByOne(guardians); } else { DivideFour(guardians); }
    }
  }

  lemma WholeWeight(guardians: map<nat, nat>)
    ensures 0 <= SumOf(guardians)
    ensures SumOf(guardians) <= U32_MAX ==> TotalWeight(guardians) == SumOf(guardians)
  {
    SumBounds(AllWeights(guardians));
  }

  /** At the quorum floor twice the threshold is within the total for 0, 1, 2 and 4 only. */
  lemma FloorTotals(total: nat, quorumBps: nat)
    requires quorumBps <= MIN_QUORUM_BPS
    ensures 2 * Threshold(total, quorumBps) <= total <==> total in {0, 1, 2, 4}
  {
    if total >= 5 { TwoThirdsTwice(total, quorumBps); }
  }

  /** Any two guardians who each have the weight needed can disagree. */
  lemma TwoHeavyGuardians(guardians: map<nat, nat>, quorumBps: nat, a: nat, b: nat)
    requires Weighted(guardians) && quorumBps <= BPS && a in guardians && b in guardians && a != b
    requires guardians[a] >= Needed(guardians, quorumBps) && guardians[b] >= Needed(guardians, quorumBps)
    ensures exists p: Proposal :: p.quorumBps == quorumBps && BothReach(p, guardians)
  {
    hide Weight, Threshold;
    SingleWeight(guardians, a);
    MemberWeight(guardians, guardians.Keys - {a}, b);
    assert Divides(guardians, {a}, Needed(guardians, quorumBps));
    BothSidesSplitIff(guardians, quorumBps);
  }

  /** Where the total is cut off no quorum prevents it: two guardians of the largest weight each
      have the weight needed, whatever it is. */
  lemma CutOffLetsBothThrough(guardians: map<nat, nat>, quorumBps: nat, a: nat, b: nat)
    requires Weighted(guardians) && quorumBps <= BPS && a in guardians && b in guardians && a != b
    requires guardians[a] == guardians[b] == U32_MAX
    ensures SumOf(guardians) > U32_MAX
    ensures exists p: Proposal :: p.quorumBps == quorumBps && BothReach(p, guardians)
  {
    hide Weight, Threshold;
    NeededFits(guardians, quorumBps);
    TwoHeavyGuardians(guardians, quorumBps, a, b);
    SingleWeight(guardians, a);
    MemberWeight(guardians, guardians.Keys - {a}, b);
    WeightJoin(guardians, {a});
  }

  // ----- Proposals that runs produce -----

  /** Only the stored administrator votes, and a new one closes every earlier proposal. */
  predicate OneVoter(p: Proposal) { forall a, b :: a in p.votes && b in p.votes ==> a == b }

  ghost predicate OneVoterEach(g: Gov) { forall id :: id in g.proposals ==> OneVoter(g.proposals[id]) }

  lemma StepOneVoter(g: Gov, op: Op)
    requires Inv(g) && OneVoterEach(g)
    ensures OneVoterEach(Step(g, op))
  {
    hide Approval, VotesFor, Threshold, TotalWeight, VotesAgainst, ValidConfig;
    if op.DoRotate? && RotateDirectly(g, op.newAdmin, op.cooldownOver).Ok? { ApprovalBelowNext(g, op.newAdmin, 0); }
    if op.DoVote? && op.id in g.proposals { assert ProposalOk(g, op.id); }
  }

  lemma {:induction false} RunOneVoter(g: Gov, ops: seq<Op>)
    requires Inv(g) && OneVoterEach(g)
    ensures OneVoterEach(Run(g, ops))
  {
    hide Inv, Step, OneVoterEach;
    if ops != [] {
      RunOneVoter(g, ops[..|ops| - 1]);
      RunInv(g, ops[..|ops| - 1]);
      StepOneVoter(Run(g, ops[..|ops| - 1]), ops[|ops| - 1]);
    }
  }

  /** One vote weighs on one side only, and no more than the whole. */
  lemma OneVoterTally(p: Proposal, guardians: map<nat, nat>)
    requires OneVoter(p) && Weighted(guardians)
    ensures 0 <= VotesFor(p, guardians) && 0 <= VotesAgainst(p, guardians)
    ensures VotesFor(p, guardians) == 0 || VotesAgainst(p, guardians) == 0
    ensures VotesFor(p, guardians) + VotesAgainst(p, guardians) <= TotalWeight(guardians)
  {
    WholeWeight(guardians);
    if p.votes == map[] {
      NoVotes(p, guardians);
    } else {
      var voter :| voter in p.votes;
      assert p.votes.Keys == {voter};
      SoleVoter(p.votes, guardians, voter, true);
      SoleVoter(p.votes, guardians, voter, false);
      if voter in guardians {
        MemberWeight(guardians, guardians.Keys, voter);
        assert Part(guardians, guardians.Keys) == AllWeights(guardians);
      }
    }
  }

  lemma NoVotes(p: Proposal, guardians: map<nat, nat>)
    requires p.votes == map[]
    ensures VotesFor(p, guardians) == 0 && VotesAgainst(p, guardians) == 0
  {
    assert VoteWeights(p.votes, guardians, true) == map[] && VoteWeights(p.votes, guardians, false) == map[];
  }

  /** Nothing is needed exactly where nobody weighs anything, or the whole weight is one and the
      quorum is not complete. */
  lemma NothingNeededIff(guardians: map<nat, nat>, quorumBps: nat)
    requires quorumBps <= BPS
    ensures Needed(guardians, quorumBps) == 0 <==> TotalWeight(guardians) == 0 || (TotalWeight(guardians) == 1 && quorumBps < BPS)
  {
    hide TotalWeight, Threshold;
    AllWeightsNonNegative(guardians);
    ZeroThresholdIff(TotalWeight(guardians), quorumBps);
  }

  lemma ZeroThresholdIff(total: nat, quorumBps: nat)
    requires quorumBps <= BPS
    ensures Threshold(total, quorumBps) == 0 <==> total == 0 || (total == 1 && quorumBps < BPS)
  {
    var q := EffectiveQuorum(quorumBps);
    if total >= 2 {
      ProductAtLeast(total, q);
      QuotientGrows(BPS, total * q);
    }
  }

  lemma ProductAtLeast(total: nat, q: nat)
    requires total >= 2 && q >= MIN_QUORUM_BPS
    ensures total * q >= BPS
  {
    assert total * q >= 2 * q;
  }

  /** Over every run, for whatever weights, cut-off totals included: votes for and against a proposal
      stay within the total weight, and both sides reach the threshold exactly where nothing is
      needed, which is so only for a total weight of zero, or of one under an incomplete quorum. */
  lemma RunTally(g: Gov, ops: seq<Op>, id: nat)
    requires Inv(g) && OneVoterEach(g) && id in Run(g, ops).proposals
    ensures var w, p := Run(g, ops), Run(g, ops).proposals[id];
            && VotesFor(p, w.guardians) + VotesAgainst(p, w.guardians) <= TotalWeight(w.guardians)
            && (BothReach(p, w.guardians) <==> TotalWeight(w.guardians) == 0 || (TotalWeight(w.guardians) == 1 && p.quorumBps < BPS))
  {
    hide Run, VotesFor, VotesAgainst, Threshold;
    RunInv(g, ops);
    RunOneVoter(g, ops);
    var w := Run(g, ops);
    assert ProposalOk(w, id);
    OneVoterTally(w.proposals[id], w.guardians);
    NeededFits(w.guardians, w.proposals[id].quorumBps);
    NothingNeededIff(w.guardians, w.proposals[id].quorumBps);
  }
}
