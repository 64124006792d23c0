/** What every governor call keeps, and what follows about executed proposals and lifecycle order. */
module GovernorInvariants {
  import opened Common
  import opened GovernorRules
  import opened Recounts

  ghost predicate LedgerOk(l: Ledger) {
    && (forall s :: s in l.sessions ==> SessionOk(l, s))
    && (forall p :: p in l.terms ==> TermsOk(l, p))
    && (forall k :: k in l.houses ==> k.0 in l.sessions)
    && BallotsOk(l.ballots, l.houses, l.terms)
    && BudgetsOk(l)
  }

  ghost predicate SessionOk(l: Ledger, s: nat) {
    s in l.sessions
    && 1 <= s <= l.sessionCount
    && l.sessions[s].startsAt < l.sessions[s].endsAt
    && l.sessions[s].budget >= 1 && l.sessions[s].creatorQuorum >= 1 && l.sessions[s].userQuorum >= 1
  }

  /** Voting happens inside the session. */
  ghost predicate TermsOk(l: Ledger, p: nat) {
    && p in l.terms && 1 <= p <= l.proposalCount
    && l.terms[p].sessionId in l.sessions
    && l.sessions[l.terms[p].sessionId].startsAt <= l.terms[p].votingStartsAt
    && l.terms[p].votingStartsAt < l.terms[p].votingEndsAt <= l.sessions[l.terms[p].sessionId].endsAt
    && l.terms[p].changeClass != NoClass
  }

  /** The shared ledger: over all proposals of a session nobody spends more than the budget. */
  ghost predicate BudgetsOk(l: Ledger) {
    forall s, m :: s in l.sessions ==> Spent(l, s, m) <= l.sessions[s].budget as int
  }

  predicate Deliberated(c: Case) {
    c.preVote.Some? && c.preVote.value.passed && c.creatorDeliberation != 0 && c.userDeliberation != 0
  }

  /** Nobody votes before the review has passed and both Houses have deliberated. */
  ghost predicate VotesOk(l: Ledger, p: nat, c: Case) {
    forall m :: (p, m) in l.ballots ==> Deliberated(c)
  }

  /** Approvals still match a recount of the ballots, and were taken after voting ended. */
  ghost predicate ApprovalOk(l: Ledger, p: nat, c: Case, now: uint64)
    requires p in l.terms && l.terms[p].sessionId in l.sessions
  {
    if c.finalized then
      && l.terms[p].votingEndsAt <= now
      && (c.creatorApproved <==> HouseApproves(l, p, CreatorHouse))
      && (c.userApproved <==> HouseApproves(l, p, UserHouse))
    else !c.creatorApproved && !c.userApproved
  }

  predicate Documented(r: PreVoteReview) { r.charterHash != 0 && r.legalHash != 0 && r.assessmentHash != 0 }

  /** Complete evidence about the very payload that is to be executed. */
  predicate Tested(t: Terms, e: TestEvidence) {
    && e.sourceHash != 0 && e.artifactHash != 0 && e.suiteHash != 0 && e.reportHash != 0
    && e.testedCallDataHash == t.callDataHash
  }

  /** Each later stage has everything the earlier ones demand, and an executed proposal made one call. */
  predicate PipelineOk(cfg: Config, t: Terms, c: Case, now: uint64) {
    && (c.preVote.Some? ==> Documented(c.preVote.value))
    && (c.test.Some? ==> JointlyApproved(c) && Tested(t, c.test.value))
    && (c.reviewed ==> JointlyApproved(c) && c.review != 0 && c.test.Some? && c.test.value.passed
                       && (t.changeClass == Constitutional ==> c.constitutional != 0))
    && (c.queued ==>
          && c.reviewed && t.votingEndsAt <= c.queuedAt <= now
          && c.executableAt as int == c.queuedAt as int + DelayFor(cfg, t.changeClass) as int
          && c.expiresAt as int == c.executableAt as int + cfg.window as int)
    && (c.cancelled ==> c.queued)
    && (c.executed ==> c.queued && !c.cancelled)
    && (if c.executed then |c.runs| == 1 && RunOk(cfg, t, c, c.runs[0], now) else c.runs == [])
  }

  /** The call was made inside the execution window with the registered target, value and payload. */
  predicate RunOk(cfg: Config, t: Terms, c: Case, run: Execution, now: uint64) {
    && run.target == t.target && run.value == t.value && run.callDataHash == t.callDataHash && run.chainId == cfg.chainId
    && c.executableAt <= run.at <= c.expiresAt && run.at <= now
  }

  ghost predicate CaseOk(cfg: Config, l: Ledger, p: nat, c: Case, now: uint64) {
    && TermsOk(l, p) && VotesOk(l, p, c) && ApprovalOk(l, p, c, now) && PipelineOk(cfg, l.terms[p], c, now)
  }

  /** A CFP revision is bound to one proposal and a proposal to at most one revision. */
  ghost predicate BindingsOk(g: Gov) {
    && (forall p :: p in g.cfpOf ==> p in g.cases && g.cfpOf[p] in g.cfpProposal && g.cfpProposal[g.cfpOf[p]] == p)
    && (forall k :: k in g.cfpProposal ==> g.cfpProposal[k] in g.cfpOf && g.cfpOf[g.cfpProposal[k]] == k)
  }

  ghost predicate SameBindings(g: Gov, g': Gov) {
    g'.cfpOf == g.cfpOf && g'.cfpProposal == g.cfpProposal
  }

  ghost predicate GovOk(cfg: Config, g: Gov, now: uint64) {
    && LedgerOk(g.ledger)
    && BindingsOk(g)
    && Shaped(g)
    && forall p :: p in g.cases ==> CaseOk(cfg, g.ledger, p, g.cases[p], now)
  }

  lemma DeployedOk(cfg: Config, now: uint64)
    ensures GovOk(cfg, DEPLOYED, now)
  {
  }

  lemma LaterClock(cfg: Config, g: Gov, before: uint64, now: uint64)
    requires GovOk(cfg, g, before) && before <= now
    ensures GovOk(cfg, g, now)
  {
  }

  /** Nonces and the reentrancy guard are no part of the invariants. */
  lemma GuardsDoNotMatter(cfg: Config, g: Gov, nonces: map<Address, nat>, entered: bool, now: uint64)
    requires GovOk(cfg, g, now)
    ensures GovOk(cfg, g.(nonces := nonces, entered := entered), now)
  {
    hide LedgerOk, CaseOk;
  }

  // Ledger changes

  /** What a ledger change must leave alone for a proposal's standing not to change. */
  ghost predicate SameRecount(l: Ledger, l': Ledger, p: nat) {
    && p in l.terms && p in l'.terms && l'.terms[p] == l.terms[p] && l'.proposalCount >= l.proposalCount
    && l.terms[p].sessionId in l.sessions && l.terms[p].sessionId in l'.sessions
    && l'.sessions[l.terms[p].sessionId] == l.sessions[l.terms[p].sessionId]
    && (forall h :: Voters(l', p, h) == Voters(l, p, h) && Score(l', p, h) == Score(l, p, h))
    && (forall m :: (p, m) in l'.ballots ==> (p, m) in l.ballots)
  }

  lemma SameRecountKeeps(cfg: Config, l: Ledger, l': Ledger, now: uint64)
    ensures forall p, c :: CaseOk(cfg, l, p, c, now) && SameRecount(l, l', p) ==> CaseOk(cfg, l', p, c, now)
  {
  }

  lemma CreateSessionKeeps(l: Ledger, now: uint64, session: Session)
    requires LedgerOk(l)
    ensures var r := CreateSession(l, now, session);
            r.Ok? ==> LedgerOk(r.value) && forall p :: p in l.terms ==> SameRecount(l, r.value, p)
  {
    var r := CreateSession(l, now, session);
    if r.Ok? {
      var l' := r.value;
      assert forall s :: s in l.sessions ==> SessionOk(l, s);
      assert forall p :: p in l.terms ==> TermsOk(l, p);
      forall s, m | s in l'.sessions ensures Spent(l', s, m) <= l'.sessions[s].budget as int {
        if s == l'.sessionCount { assert ProposalsOf(l'.terms, s) == {}; }
        else { assert Spent(l', s, m) == Spent(l, s, m); }
      }
      assert forall p :: p in l'.terms ==> TermsOk(l', p);
      assert forall p, h :: p in l.terms ==> Voters(l', p, h) == Voters(l, p, h) && Score(l', p, h) == Score(l, p, h);
    }
  }

  lemma RegisterMemberKeeps(l: Ledger, now: uint64, s: nat, member: Address, house: House)
    requires LedgerOk(l)
    ensures var r := RegisterMember(l, now, s, member, house);
            r.Ok? ==> LedgerOk(r.value) && forall p :: p in l.terms ==> SameRecount(l, r.value, p)
  {
    var r := RegisterMember(l, now, s, member, house);
    if r.Ok? {
      var l' := r.value;
      assert (s, member) !in l.houses;
      SameSpent(l, l');
      hide Spent;
      forall p, h | p in l.terms
        ensures TermsOk(l', p) && Voters(l', p, h) == Voters(l, p, h) && Score(l', p, h) == Score(l, p, h)
      {
        assert TermsOk(l, p);
        VotersAfterAdmission(l.ballots, l.houses, s, member, house, l.terms[p].sessionId, p, h);
      }
      assert forall t :: t in l.sessions ==> SessionOk(l, t);
    }
  }

  lemma SameSpent(l: Ledger, l': Ledger)
    requires l'.ballots == l.ballots && l'.terms == l.terms
    ensures forall s, m :: Spent(l', s, m) == Spent(l, s, m)
  {
  }

  lemma NewProposalSpends(l: Ledger, l': Ledger, now: uint64, terms: Terms, s: nat, m: Address)
    requires LedgerOk(l) && RegisterProposal(l, now, terms) == Ok(l')
    ensures Spent(l', s, m) == Spent(l, s, m)
  {
    var id := l'.proposalCount;
    assert id !in l.terms by {
      assert forall p :: p in l.terms ==> TermsOk(l, p);
    }
    if s == terms.sessionId {
      assert ProposalsOf(l'.terms, s) == ProposalsOf(l.terms, s) + {id};
      SpentOnNewProposal(l.ballots, ProposalsOf(l.terms, s), id, m);
    } else {
      assert ProposalsOf(l'.terms, s) == ProposalsOf(l.terms, s);
    }
  }

  lemma NewProposalRecounts(l: Ledger, l': Ledger, now: uint64, terms: Terms, p: nat)
    requires LedgerOk(l) && RegisterProposal(l, now, terms) == Ok(l') && p in l.terms
    ensures SameRecount(l, l', p) && TermsOk(l', p)
  {
    assert TermsOk(l, p);
    forall h ensures Voters(l', p, h) == Voters(l, p, h) && Score(l', p, h) == Score(l, p, h) {}
  }

  lemma NewProposalBallots(l: Ledger, l': Ledger, now: uint64, terms: Terms)
    requires LedgerOk(l) && RegisterProposal(l, now, terms) == Ok(l')
    ensures l'.proposalCount !in l.terms && BallotsOk(l'.ballots, l'.houses, l'.terms)
    ensures forall m :: (l'.proposalCount, m) !in l.ballots
  {
    assert l'.proposalCount !in l.terms by {
      assert forall p :: p in l.terms ==> TermsOk(l, p);
    }
  }

  lemma RegisterProposalKeeps(l: Ledger, l': Ledger, now: uint64, terms: Terms)
    requires LedgerOk(l) && RegisterProposal(l, now, terms) == Ok(l')
    ensures LedgerOk(l')
  {
    forall p | p in l'.terms ensures TermsOk(l', p) {
      if p != l'.proposalCount { NewProposalRecounts(l, l', now, terms, p); }
    }
    forall s | s in l'.sessions ensures SessionOk(l', s) {
      assert SessionOk(l, s);
    }
    forall s, m | s in l'.sessions ensures Spent(l', s, m) <= l'.sessions[s].budget as int {
      NewProposalSpends(l, l', now, terms, s, m);
    }
    NewProposalBallots(l, l', now, terms);
  }

  /** An accepted ballot is well formed, comes from a registered member and fits the voter's budget. */
  lemma AcceptedBallot(l: Ledger, l': Ledger, p: nat, intensity: int8, member: Address, b: Ballot)
    requires p in l.terms && l.terms[p].sessionId in l.sessions
    requires CastBallot(l, p, intensity, member) == Ok(l') && b == l'.ballots[(p, member)]
    ensures l' == l.(ballots := l.ballots[(p, member) := b])
    ensures -9 <= b.intensity <= 9 && b.cost as int == b.intensity as int * b.intensity as int
    ensures (l.terms[p].sessionId, member) in l.houses
    ensures Spent(l, l.terms[p].sessionId, member) - CostOf(l.ballots, p, member) + b.cost as int
            <= l.sessions[l.terms[p].sessionId].budget as int
  {
  }

  /** Arithmetic can fail only where the budget is exceeded anyway, or with 2^32 - 1 voters in one House. */
  lemma PanicOnlyBeyondLimits(l: Ledger, p: nat, intensity: int8, member: Address)
    requires LedgerOk(l) && p in l.terms && l.terms[p].sessionId in l.sessions
    requires CastBallot(l, p, intensity, member) == Revert(ArithmeticPanic)
    ensures var s := l.terms[p].sessionId;
            || Spent(l, s, member) - CostOf(l.ballots, p, member) + intensity as int * intensity as int
               > l.sessions[s].budget as int
            || |Voters(l, p, HouseOf(l.houses, s, member))| >= 0xFFFF_FFFF
    ensures 0 <= CostOf(l.ballots, p, member) <= Spent(l, l.terms[p].sessionId, member)
  {
    SpentCoversEach(l.ballots, ProposalsOf(l.terms, l.terms[p].sessionId), p, member);
  }

  /** Open, in time, deliberated, from a member, and within the budget together with everything else of the session. */
  ghost predicate Countable(g: Gov, now: uint64, p: nat, intensity: int8, member: Address)
    requires Shaped(g)
  {
    && p in g.cases && p in g.ledger.terms
    && var (c, l, t) := (g.cases[p], g.ledger, g.ledger.terms[p]);
    && !c.finalized && !c.cancelled && !c.executed && t.votingStartsAt <= now < t.votingEndsAt
    && c.preVote.Some? && c.preVote.value.passed && c.creatorDeliberation != 0 && c.userDeliberation != 0
    && -9 <= intensity <= 9 && Read(l.houses, (t.sessionId, member), NoHouse) != NoHouse
    && Spent(l, t.sessionId, member) - CostOf(l.ballots, p, member) + intensity as int * intensity as int
       <= l.sessions[t.sessionId].budget as int
    && ((p, member) in l.ballots || |Voters(l, p, Read(l.houses, (t.sessionId, member), NoHouse))| < 0xFFFF_FFFF)
  }

  /** Exactly these ballots count; neither uint32 arithmetic nor the order of the checks adds a condition. */
  lemma WhenVoteCounts(g: Gov, now: uint64, p: nat, intensity: int8, member: Address)
    requires LedgerOk(g.ledger) && Shaped(g)
    ensures GovernorRules.CastVote(g, now, p, intensity, member).Ok? <==> Countable(g, now, p, intensity, member)
  {
    hide LedgerOk, Spent, Voters;
  }

  lemma VoteBudgets(l: Ledger, p: nat, member: Address, b: Ballot)
    requires p in l.terms && l.terms[p].sessionId in l.sessions && BudgetsOk(l)
    requires Spent(l, l.terms[p].sessionId, member) - CostOf(l.ballots, p, member) + b.cost as int
             <= l.sessions[l.terms[p].sessionId].budget as int
    ensures BudgetsOk(l.(ballots := l.ballots[(p, member) := b]))
  {
    var l' := l.(ballots := l.ballots[(p, member) := b]);
    forall s, m | s in l'.sessions ensures Spent(l', s, m) <= l'.sessions[s].budget as int {
      SpentAfterVote(l.ballots, ProposalsOf(l.terms, s), p, member, b, m);
      assert Spent(l, s, m) <= l.sessions[s].budget as int;
    }
  }

  lemma VoteElsewhere(l: Ledger, p: nat, member: Address, b: Ballot, q: nat)
    requires q in l.terms && TermsOk(l, q) && q != p
    ensures SameRecount(l, l.(ballots := l.ballots[(p, member) := b]), q)
  {
    forall h {
      RecountElsewhere(l.ballots, l.houses, l.terms[q].sessionId, p, member, b, q, h);
    }
  }

  lemma CastBallotKeeps(l: Ledger, l': Ledger, p: nat, intensity: int8, member: Address)
    requires LedgerOk(l) && p in l.terms && l.terms[p].sessionId in l.sessions
    requires CastBallot(l, p, intensity, member) == Ok(l')
    ensures LedgerOk(l') && l'.terms == l.terms
    ensures forall q :: q in l.terms && q != p ==> SameRecount(l, l', q)
  {
    var b := l'.ballots[(p, member)];
    AcceptedBallot(l, l', p, intensity, member, b);
    VoteBudgets(l, p, member, b);
    forall q | q in l.terms ensures TermsOk(l', q) && (q != p ==> SameRecount(l, l', q)) {
      assert TermsOk(l, q);
      if q != p { VoteElsewhere(l, p, member, b, q); }
    }
    assert forall s :: s in l.sessions ==> SessionOk(l, s);
  }

  // Whole-contract preservation

  lemma LedgerChangeKeeps(cfg: Config, g: Gov, g': Gov, now: uint64)
    requires GovOk(cfg, g, now) && g'.cases == g.cases && SameBindings(g, g')
    requires LedgerOk(g'.ledger) && g'.ledger.terms == g.ledger.terms
    requires forall p :: p in g.ledger.terms ==> SameRecount(g.ledger, g'.ledger, p)
    ensures GovOk(cfg, g', now)
  {
    hide CaseOk, LedgerOk, SameRecount;
    SameRecountKeeps(cfg, g.ledger, g'.ledger, now);
    SameShape(g, g');
  }

  lemma SameShape(g: Gov, g': Gov)
    requires Shaped(g) && g'.cases == g.cases && g'.ledger.terms == g.ledger.terms
    requires forall p :: p in g.ledger.terms ==> SameRecount(g.ledger, g'.ledger, p)
    ensures Shaped(g')
  {
    hide Voters, Score;
  }

  lemma NewProposalCases(cfg: Config, g: Gov, g': Gov, now: uint64, terms: Terms, p: nat)
    requires GovOk(cfg, g, now) && RegisterProposal(g.ledger, now, terms) == Ok(g'.ledger)
    requires g'.cases == g.cases[g'.ledger.proposalCount := NEW_CASE] && p in g'.cases
    requires TermsOk(g'.ledger, p)
    ensures CaseOk(cfg, g'.ledger, p, g'.cases[p], now)
  {
    hide CaseOk, LedgerOk, SameRecount, RegisterProposal;
    if p == g'.ledger.proposalCount {
      NewCaseOk(cfg, g.ledger, g'.ledger, now, terms);
    } else {
      NewProposalRecounts(g.ledger, g'.ledger, now, terms, p);
      SameRecountKeeps(cfg, g.ledger, g'.ledger, now);
    }
  }

  lemma NewCaseOk(cfg: Config, l: Ledger, l': Ledger, now: uint64, terms: Terms)
    requires LedgerOk(l) && RegisterProposal(l, now, terms) == Ok(l') && TermsOk(l', l'.proposalCount)
    ensures CaseOk(cfg, l', l'.proposalCount, NEW_CASE, now)
  {
    NewProposalBallots(l, l', now, terms);
  }

  lemma NewProposalKeeps(cfg: Config, g: Gov, g': Gov, now: uint64, terms: Terms)
    requires GovOk(cfg, g, now)
    requires RegisterProposal(g.ledger, now, terms) == Ok(g'.ledger)
    requires g'.cases == g.cases[g'.ledger.proposalCount := NEW_CASE]
    requires BindingsOk(g')
    ensures GovOk(cfg, g', now)
  {
    hide LedgerOk, BindingsOk, CaseOk;
    RegisterProposalKeeps(g.ledger, g'.ledger, now, terms);
    NewProposalShaped(g, g', now, terms);
    forall p | p in g'.cases ensures CaseOk(cfg, g'.ledger, p, g'.cases[p], now) {
      TermsKnown(g'.ledger, p);
      NewProposalCases(cfg, g, g', now, terms, p);
    }
  }

  lemma TermsKnown(l: Ledger, p: nat)
    requires LedgerOk(l) && p in l.terms
    ensures TermsOk(l, p)
  {
  }

  lemma NewProposalShaped(g: Gov, g': Gov, now: uint64, terms: Terms)
    requires Shaped(g) && RegisterProposal(g.ledger, now, terms) == Ok(g'.ledger)
    requires g'.cases == g.cases[g'.ledger.proposalCount := NEW_CASE]
    ensures Shaped(g')
  {
  }

  /** Ballots come in only while the outcome is open and after deliberation. */
  lemma VotedCaseKeeps(cfg: Config, l: Ledger, l': Ledger, p: nat, c: Case, now: uint64)
    requires CaseOk(cfg, l, p, c, now) && VotingBar(l.terms[p], c, now).None?
    requires l'.terms == l.terms && TermsOk(l', p)
    ensures CaseOk(cfg, l', p, c, now)
  {
  }

  lemma TermsShaped(g: Gov, g': Gov)
    requires Shaped(g) && g'.cases == g.cases && g'.ledger.terms == g.ledger.terms && LedgerOk(g'.ledger)
    ensures Shaped(g')
  {
  }

  lemma CastVoteKeeps(cfg: Config, g: Gov, g': Gov, now: uint64, p: nat)
    requires GovOk(cfg, g, now) && p in g.cases && g'.cases == g.cases && SameBindings(g, g')
    requires VotingBar(g.ledger.terms[p], g.cases[p], now).None?
    requires LedgerOk(g'.ledger) && g'.ledger.terms == g.ledger.terms
    requires forall q :: q in g.ledger.terms && q != p ==> SameRecount(g.ledger, g'.ledger, q)
    ensures GovOk(cfg, g', now)
  {
    hide CaseOk, LedgerOk, SameRecount, VotingBar;
    SameRecountKeeps(cfg, g.ledger, g'.ledger, now);
    TermsShaped(g, g');
    TermsKnown(g'.ledger, p);
    VotedCaseKeeps(cfg, g.ledger, g'.ledger, p, g.cases[p], now);
  }

  lemma CaseCallKeeps(cfg: Config, l: Ledger, c: Case, c': Case, now: uint64, call: Call)
    requires IsCaseCall(call) && CaseOk(cfg, l, call.p, c, now)
    requires ApplyToCase(cfg, l, c, now, call) == Ok(c')
    ensures CaseOk(cfg, l, call.p, c', now)
  {
  }

  lemma CaseReplacedKeeps(cfg: Config, g: Gov, g': Gov, now: uint64, p: nat, c': Case)
    requires GovOk(cfg, g, now) && p in g.cases && CaseOk(cfg, g.ledger, p, c', now)
    requires g'.ledger == g.ledger && g'.cases == g.cases[p := c'] && SameBindings(g, g')
    ensures GovOk(cfg, g', now)
  {
    hide LedgerOk, CaseOk;
  }

  lemma CaseStepKeeps(cfg: Config, g: Gov, g': Gov, now: uint64, call: Call, c: Case, c': Case)
    requires GovOk(cfg, g, now) && IsCaseCall(call) && call.p in g.cases && c == g.cases[call.p]
    requires g'.ledger == g.ledger && g'.cases == g.cases[call.p := c'] && SameBindings(g, g')
    requires ApplyToCase(cfg, g.ledger, c, now, call) == Ok(c')
    ensures GovOk(cfg, g', now)
  {
    hide LedgerOk, BindingsOk, CaseOk;
    CaseCallKeeps(cfg, g.ledger, c, c', now, call);
    CaseReplacedKeeps(cfg, g, g', now, call.p, c');
  }

  lemma SessionCallKeeps(cfg: Config, g: Gov, g': Gov, now: uint64, session: Session)
    requires GovOk(cfg, g, now) && OnLedger(g, CreateSession(g.ledger, now, session)) == Ok(g')
    ensures GovOk(cfg, g', now)
  {
    hide BindingsOk, CaseOk;
    CreateSessionKeeps(g.ledger, now, session);
    LedgerChangeKeeps(cfg, g, g', now);
  }

  lemma MemberCallKeeps(cfg: Config, g: Gov, g': Gov, now: uint64, s: nat, member: Address, house: House)
    requires GovOk(cfg, g, now) && OnLedger(g, RegisterMember(g.ledger, now, s, member, house)) == Ok(g')
    ensures GovOk(cfg, g', now)
  {
    hide BindingsOk, CaseOk;
    RegisterMemberKeeps(g.ledger, now, s, member, house);
    LedgerChangeKeeps(cfg, g, g', now);
  }

  lemma VoteStepKeeps(cfg: Config, g: Gov, g': Gov, now: uint64, p: nat, intensity: int8, member: Address)
    requires GovOk(cfg, g, now) && p in g.cases && g'.cases == g.cases && SameBindings(g, g')
    requires VotingBar(g.ledger.terms[p], g.cases[p], now).None?
    requires CastBallot(g.ledger, p, intensity, member) == Ok(g'.ledger)
    ensures GovOk(cfg, g', now)
  {
    hide BindingsOk, CaseOk;
    CastBallotKeeps(g.ledger, g'.ledger, p, intensity, member);
    CastVoteKeeps(cfg, g, g', now, p);
  }

  lemma CallOnCaseKeeps(cfg: Config, g: Gov, g': Gov, now: uint64, call: Call)
    requires GovOk(cfg, g, now) && IsCaseCall(call) && OnCase(cfg, g, now, call) == Ok(g')
    ensures GovOk(cfg, g', now)
  {
    hide LedgerOk, BindingsOk, CaseOk;
    CaseStepKeeps(cfg, g, g', now, call, g.cases[call.p], g'.cases[call.p]);
  }

  lemma PlainProposalKeeps(cfg: Config, g: Gov, g': Gov, now: uint64, terms: Terms)
    requires GovOk(cfg, g, now)
    requires OnLedger(g.(cases := g.cases[g.ledger.proposalCount + 1 := NEW_CASE]),
                      RegisterProposal(g.ledger, now, terms)) == Ok(g')
    ensures GovOk(cfg, g', now)
  {
    hide LedgerOk, CaseOk;
    NewProposalKeeps(cfg, g, g', now, terms);
  }

  lemma CfpProposalKeeps(cfg: Config, g: Gov, g': Gov, now: uint64, cfp: Hash, revision: uint32, terms: Terms)
    requires GovOk(cfg, g, now) && RegisterWithCfp(g, now, cfp, revision, terms) == Ok(g')
    ensures GovOk(cfg, g', now)
  {
    hide LedgerOk, CaseOk, BallotsOk;
    NewProposalBallots(g.ledger, g'.ledger, now, terms);
    NewProposalKeeps(cfg, g, g', now, terms);
  }

  lemma RegistryCallKeeps(cfg: Config, g: Gov, g': Gov, now: uint64, call: Call)
    requires GovOk(cfg, g, now) && !IsCaseCall(call) && OnRegistry(g, now, call) == Ok(g')
    ensures GovOk(cfg, g', now)
  {
    hide LedgerOk, BindingsOk, CaseOk;
    if call.CallCreateSession? {
      SessionCallKeeps(cfg, g, g', now, call.session);
    } else if call.CallRegisterMember? {
      MemberCallKeeps(cfg, g, g', now, call.s, call.member, call.house);
    } else if call.CallRegisterProposal? {
      PlainProposalKeeps(cfg, g, g', now, call.terms);
    } else if call.CallRegisterCfpProposal? {
      CfpProposalKeeps(cfg, g, g', now, call.cfp, call.revision, call.terms);
    } else {
      VoteStepKeeps(cfg, g, g', now, call.p, call.intensity, call.member);
    }
  }

  /** Every call the governor accepts keeps every invariant, also while a target is re-entering. */
  lemma ApplyKeeps(cfg: Config, g: Gov, g': Gov, now: uint64, call: Call)
    requires GovOk(cfg, g, now) && Apply(cfg, g, now, call) == Ok(g')
    ensures GovOk(cfg, g', now)
  {
    hide LedgerOk, BindingsOk, CaseOk;
    if IsCaseCall(call) {
      CallOnCaseKeeps(cfg, g, g', now, call);
    } else {
      RegistryCallKeeps(cfg, g, g', now, call);
    }
  }
}
