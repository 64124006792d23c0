/** How one ballot changes the recounts, and what the recounts can never exceed. */
module Recounts {
  import opened Common
  import opened FiniteSums
  import opened GovernorRules

  type Ballots = map<(nat, Address), Ballot>

  /** Every ballot belongs to a registered member of the proposal's session and costs its intensity squared. */
  ghost predicate BallotsOk(ballots: Ballots, houses: map<(nat, Address), House>, terms: map<nat, Terms>) {
    && (forall k :: k in houses ==> houses[k] != NoHouse)
    && forall k :: k in ballots ==>
      && k.0 in terms && (terms[k.0].sessionId, k.1) in houses
      && -9 <= ballots[k].intensity <= 9
      && ballots[k].cost as int == ballots[k].intensity as int * ballots[k].intensity as int
  }

  /** Voting on p adds at most the voter to their own House and nobody anywhere else. */
  lemma VotersAfterVote(ballots: Ballots, houses: map<(nat, Address), House>, s: nat, p: nat, m: Address, b: Ballot, h: House)
    ensures VotersOn(ballots[(p, m) := b], houses, s, p, h) ==
            VotersOn(ballots, houses, s, p, h) + (if HouseOf(houses, s, m) == h then {m} else {})
    ensures m in VotersOn(ballots, houses, s, p, h) <==> (p, m) in ballots && HouseOf(houses, s, m) == h
  {
  }

  /** The incremental score update of one vote is exactly the change of the recount. */
  lemma ScoreAfterVote(ballots: Ballots, houses: map<(nat, Address), House>, s: nat, p: nat, m: Address, b: Ballot, h: House)
    ensures var before := VotersOn(ballots, houses, s, p, h);
            var after := VotersOn(ballots[(p, m) := b], houses, s, p, h);
            if HouseOf(houses, s, m) == h
            then ScoreOn(ballots[(p, m) := b], after, p)
                   == ScoreOn(ballots, before, p) - IntensityOf(ballots, p, m) + b.intensity as int
              && |after| == |before| + (if (p, m) in ballots then 0 else 1)
            else after == before && ScoreOn(ballots[(p, m) := b], after, p) == ScoreOn(ballots, before, p)
  {
    VotersAfterVote(ballots, houses, s, p, m, b, h);
    hide VotersOn;
    var later := ballots[(p, m) := b];
    var before, after := VotersOn(ballots, houses, s, p, h), VotersOn(later, houses, s, p, h);
    var f, f' := IntensitiesOn(ballots, p), IntensitiesOn(later, p);
    if HouseOf(houses, s, m) != h {
      SumCongruent(before, f, f');
    } else if (p, m) in ballots {
      assert after == before;
      SumReplace(before, f, f', m);
    } else {
      SumInsert(before, f, f', m);
    }
  }

  /** A vote on p leaves every other proposal's recount alone. */
  lemma RecountElsewhere(ballots: Ballots, houses: map<(nat, Address), House>, s: nat, p: nat, m: Address, b: Ballot,
                         q: nat, h: House)
    requires q != p
    ensures VotersOn(ballots[(p, m) := b], houses, s, q, h) == VotersOn(ballots, houses, s, q, h)
    ensures var v := VotersOn(ballots, houses, s, q, h);
            ScoreOn(ballots[(p, m) := b], v, q) == ScoreOn(ballots, v, q)
  {
    var later := ballots[(p, m) := b];
    assert forall k :: k in later && k.0 == q ==> k in ballots;
    assert VotersOn(later, houses, s, q, h) == VotersOn(ballots, houses, s, q, h);
    SumCongruent(VotersOn(ballots, houses, s, q, h), IntensitiesOn(ballots, q), IntensitiesOn(later, q));
  }

  /** One vote moves the voter's own ledger by the cost difference and nobody else's. */
  lemma SpentAfterVote(ballots: Ballots, proposals: set<nat>, p: nat, m: Address, b: Ballot, x: Address)
    ensures SpentOn(ballots[(p, m) := b], proposals, x) ==
            SpentOn(ballots, proposals, x)
              + (if x == m && p in proposals then b.cost as int - CostOf(ballots, p, m) else 0)
  {
    var later := ballots[(p, m) := b];
    var f, f' := CostsBy(ballots, x), CostsBy(later, x);
    if x == m && p in proposals {
      SumReplace(proposals, f, f', p);
    } else {
      SumCongruent(proposals, f, f');
    }
  }

  /** A proposal nobody has voted on costs nobody anything. */
  lemma SpentOnNewProposal(ballots: Ballots, proposals: set<nat>, p: nat, x: Address)
    requires p !in proposals && (p, x) !in ballots
    ensures SpentOn(ballots, proposals + {p}, x) == SpentOn(ballots, proposals, x)
  {
    SumSubset(proposals, proposals + {p}, CostsBy(ballots, x));
  }

  /** Admitting someone who has not voted changes no recount. */
  lemma VotersAfterAdmission(ballots: Ballots, houses: map<(nat, Address), House>, s: nat, m: Address, house: House,
                             t: nat, p: nat, h: House)
    requires t == s ==> (p, m) !in ballots
    ensures VotersOn(ballots, houses[(s, m) := house], t, p, h) == VotersOn(ballots, houses, t, p, h)
  {
  }

  /** |score| <= 9 * participants, far inside int64 for any uint32 participant count. */
  lemma ScoreBound(ballots: Ballots, voters: set<Address>, p: nat)
    requires forall k :: k in ballots ==> -9 <= ballots[k].intensity <= 9
    ensures -9 * |voters| <= ScoreOn(ballots, voters, p) <= 9 * |voters|
  {
    var f := IntensitiesOn(ballots, p);
    SumAtMost(voters, f, 9);
    SumAtMost(voters, m => -f(m), 9);
    SumScaled(voters, f, m => -f(m), -1);
  }

  /** A ledger entry is never negative, and never less than the part already spent on one proposal. */
  lemma {:induction false} SpentCoversEach(ballots: Ballots, proposals: set<nat>, p: nat, m: Address)
    ensures 0 <= SpentOn(ballots, proposals, m)
    ensures p in proposals ==> CostOf(ballots, p, m) <= SpentOn(ballots, proposals, m)
  {
    var f := CostsBy(ballots, m);
    var none := (q: nat) => 0;
    SumScaled(proposals, f, none, 0);
    SumMonotone(proposals, none, f);
    if p in proposals {
      SumRemove(proposals, f, p);
      SumScaled(proposals - {p}, f, none, 0);
      SumMonotone(proposals - {p}, none, f);
    }
  }

  /** Per proposal: score^2 <= participants * total cost. */
  lemma ScoreSquaredBound(ballots: Ballots, voters: set<Address>, p: nat)
    requires forall k :: k in ballots ==>
      ballots[k].cost as int == ballots[k].intensity as int * ballots[k].intensity as int
    ensures ScoreOn(ballots, voters, p) * ScoreOn(ballots, voters, p)
            <= |voters| * Sum(voters, CostsOn(ballots, p))
  {
    CauchySchwarz(voters, IntensitiesOn(ballots, p), CostsOn(ballots, p));
  }

  /** Everyone of House h who voted on anything in the session. */
  function SessionVoters(l: Ledger, s: nat, h: House): set<Address> {
    set k | k in l.ballots && k.0 in ProposalsOf(l.terms, s) && HouseOf(l.houses, s, k.1) == h :: k.1
  }

  ghost function ScoresSquared(l: Ledger, h: House): nat -> int {
    (p: nat) => if p in l.terms then Score(l, p, h) * Score(l, p, h) else 0
  }

  /** The squares of a House's scores, added over all proposals of a session. */
  ghost function InfluenceOf(l: Ledger, s: nat, h: House): int { Sum(ProposalsOf(l.terms, s), ScoresSquared(l, h)) }

  function Costs(ballots: Ballots): (nat, Address) -> int { (p: nat, m: Address) => CostOf(ballots, p, m) }

  /** What a group of members spends on all proposals together is within budget per member. */
  lemma TotalCostBound(ballots: Ballots, proposals: set<nat>, voters: set<Address>, budget: nat)
    requires forall m :: m in voters ==> SpentOn(ballots, proposals, m) <= budget
    ensures Sum(proposals, RowTotals(Costs(ballots), voters)) <= |voters| * budget
  {
    SumExchange(proposals, voters, Costs(ballots));
    forall m | m in voters ensures ColumnTotals(Costs(ballots), proposals)(m) <= budget {
      SumCongruent(proposals, Column(Costs(ballots), m), CostsBy(ballots, m));
    }
    SumAtMost(voters, ColumnTotals(Costs(ballots), proposals), budget);
  }

  lemma ScoreFromSessionVoters(l: Ledger, s: nat, h: House, p: nat)
    requires p in ProposalsOf(l.terms, s)
    ensures Score(l, p, h) == ScoreOn(l.ballots, SessionVoters(l, s, h), p)
  {
    var all, some := SessionVoters(l, s, h), Voters(l, p, h);
    forall m | m in all ensures (p, m) in l.ballots ==> m in some {
      var k :| k in l.ballots && HouseOf(l.houses, s, k.1) == h && k.1 == m;
      if (p, m) in l.ballots { assert (p, m).1 == m; }
    }
    SumSubset(some, all, IntensitiesOn(l.ballots, p));
  }

  lemma InfluenceArithmetic(v: nat, total: int, budget: nat)
    requires total <= v * budget
    ensures v * total <= v * v * budget
  {
  }

  lemma ProposalInfluenceBound(l: Ledger, s: nat, h: House, p: nat)
    requires BallotsOk(l.ballots, l.houses, l.terms) && p in ProposalsOf(l.terms, s)
    ensures var voters := SessionVoters(l, s, h);
            ScoresSquared(l, h)(p) <= |voters| * RowTotals(Costs(l.ballots), voters)(p)
  {
    var voters := SessionVoters(l, s, h);
    ScoreFromSessionVoters(l, s, h, p);
    ScoreSquaredBound(l.ballots, voters, p);
    SumCongruent(voters, CostsOn(l.ballots, p), Row(Costs(l.ballots), p));
  }

  /**
   A House's total influence over one session stays within (distinct voters)^2 * budget, however
   the voters split their credits.
   */
  lemma SessionInfluenceBound(l: Ledger, s: nat, h: House, budget: nat)
    requires BallotsOk(l.ballots, l.houses, l.terms)
    requires forall m :: Spent(l, s, m) <= budget
    ensures var v := |SessionVoters(l, s, h)|;
            InfluenceOf(l, s, h) <= v * v * budget
  {
    var voters, proposals := SessionVoters(l, s, h), ProposalsOf(l.terms, s);
    var byProposal := RowTotals(Costs(l.ballots), voters);
    forall p | p in proposals ensures ScoresSquared(l, h)(p) <= |voters| * byProposal(p) {
      ProposalInfluenceBound(l, s, h, p);
    }
    SumScaledBound(proposals, byProposal, ScoresSquared(l, h), |voters|);
    forall m | m in voters ensures SpentOn(l.ballots, proposals, m) <= budget {
      assert SpentOn(l.ballots, proposals, m) == Spent(l, s, m);
    }
    TotalCostBound(l.ballots, proposals, voters, budget);
    InfluenceArithmetic(|voters|, Sum(proposals, byProposal), budget);
  }
}
