/** What governor calls never undo, the order of lifecycle states, and what execution presupposes. */
module GovernorHistory {
  import opened Common
  import opened GovernorRules
  import opened Recounts
  import opened GovernorInvariants

  ghost predicate Extends<K(!new), V>(m: map<K, V>, m': map<K, V>) {
    forall k :: k in m ==> k in m' && m'[k] == m[k]
  }

  /** Progress of one proposal from c to c', where everything new happened at `since` or later. */
  predicate CaseLater(c: Case, c': Case, since: uint64) {
    && (c.preVote.Some? ==> c'.preVote == c.preVote)
    && (c.creatorDeliberation != 0 ==> c'.creatorDeliberation == c.creatorDeliberation)
    && (c.userDeliberation != 0 ==> c'.userDeliberation == c.userDeliberation)
    && (c.finalized ==> c'.finalized && c'.creatorApproved == c.creatorApproved && c'.userApproved == c.userApproved)
    && (c.test.Some? ==> c'.test == c.test)
    && (c.reviewed ==> c'.reviewed && c'.constitutional == c.constitutional)
    && (c.queued ==> c'.queued && c'.review == c.review && c'.queuedAt == c.queuedAt
                     && c'.executableAt == c.executableAt && c'.expiresAt == c.expiresAt)
    && (c.cancelled ==> c'.cancelled && c'.executed == c.executed)
    && (c.executed ==> c'.executed && c'.runs == c.runs)
    && (c'.executed && !c.executed ==> |c'.runs| == 1 && since <= c'.runs[0].at)
  }

  /** Registrations are never rewritten and the ballots of a finalized proposal are frozen. */
  ghost predicate LedgerLater(g: Gov, l': Ledger) {
    && Extends(g.ledger.sessions, l'.sessions)
    && Extends(g.ledger.houses, l'.houses)
    && Extends(g.ledger.terms, l'.terms)
    && g.ledger.ballots.Keys <= l'.ballots.Keys
    && forall k :: k in l'.ballots && k.0 in g.cases && g.cases[k.0].finalized ==>
      k in g.ledger.ballots && l'.ballots[k] == g.ledger.ballots[k]
  }

  ghost predicate GovLater(g: Gov, g': Gov, since: uint64) {
    && LedgerLater(g, g'.ledger)
    && Extends(g.cfpOf, g'.cfpOf)
    && forall p :: p in g.cases ==> p in g'.cases && CaseLater(g.cases[p], g'.cases[p], since)
  }

  lemma GovLaterReflexive(g: Gov, since: uint64)
    ensures GovLater(g, g, since)
  {
  }

  lemma GovLaterTransitive(a: Gov, b: Gov, c: Gov, early: uint64, late: uint64)
    requires early <= late && GovLater(a, b, early) && GovLater(b, c, late)
    ensures GovLater(a, c, early)
  {
    forall p | p in a.cases ensures p in c.cases && CaseLater(a.cases[p], c.cases[p], early) {
      assert CaseLater(a.cases[p], b.cases[p], early) && CaseLater(b.cases[p], c.cases[p], late);
    }
    forall k | k in c.ledger.ballots && k.0 in a.cases && a.cases[k.0].finalized
      ensures k in a.ledger.ballots && c.ledger.ballots[k] == a.ledger.ballots[k]
    {
      assert CaseLater(a.cases[k.0], b.cases[k.0], early);
    }
  }

  lemma CaseCallMovesOn(cfg: Config, l: Ledger, c: Case, c': Case, now: uint64, call: Call)
    requires IsCaseCall(call) && CaseOk(cfg, l, call.p, c, now)
    requires ApplyToCase(cfg, l, c, now, call) == Ok(c')
    ensures CaseLater(c, c', now)
  {
  }

  /** A ballot only ever lands on an open proposal. */
  lemma VoteMovesOn(g: Gov, g': Gov, now: uint64, p: nat, intensity: int8, member: Address)
    requires LedgerOk(g.ledger) && Shaped(g) && p in g.cases && VotingBar(g.ledger.terms[p], g.cases[p], now).None?
    requires CastBallot(g.ledger, p, intensity, member) == Ok(g'.ledger)
    requires g'.cases == g.cases && g'.cfpOf == g.cfpOf
    ensures GovLater(g, g', now)
  {
    hide CaseLater, LedgerLater;
    VoteLedgerLater(g, g'.ledger, now, p, intensity, member);
    CasesUnchanged(g, g', now);
    hide LedgerOk, CastBallot;
  }

  lemma VoteLedgerLater(g: Gov, l': Ledger, now: uint64, p: nat, intensity: int8, member: Address)
    requires Shaped(g) && p in g.cases && VotingBar(g.ledger.terms[p], g.cases[p], now).None?
    requires CastBallot(g.ledger, p, intensity, member) == Ok(l')
    ensures LedgerLater(g, l')
  {
    AcceptedBallot(g.ledger, l', p, intensity, member, l'.ballots[(p, member)]);
    hide CastBallot;
  }

  lemma CasesUnchanged(g: Gov, g': Gov, since: uint64)
    requires g'.cases == g.cases
    ensures forall p :: p in g.cases ==> CaseLater(g.cases[p], g'.cases[p], since)
  {
  }

  lemma NewProposalLedgerLater(g: Gov, l': Ledger, now: uint64, terms: Terms)
    requires LedgerOk(g.ledger) && RegisterProposal(g.ledger, now, terms) == Ok(l')
    ensures LedgerLater(g, l')
  {
    NewProposalBallots(g.ledger, l', now, terms);
  }

  lemma NewProposalMovesOn(g: Gov, g': Gov, now: uint64, terms: Terms)
    requires LedgerOk(g.ledger) && Shaped(g) && BindingsOk(g) && RegisterProposal(g.ledger, now, terms) == Ok(g'.ledger)
    requires g'.cases == g.cases[g'.ledger.proposalCount := NEW_CASE]
    requires forall p :: p in g.cfpOf && p != g'.ledger.proposalCount ==> p in g'.cfpOf && g'.cfpOf[p] == g.cfpOf[p]
    ensures GovLater(g, g', now)
  {
    hide LedgerOk, LedgerLater, BallotsOk;
    NewProposalLedgerLater(g, g'.ledger, now, terms);
    NewProposalBallots(g.ledger, g'.ledger, now, terms);
  }

  lemma NewSessionMovesOn(g: Gov, g': Gov, now: uint64, session: Session)
    requires LedgerOk(g.ledger) && OnLedger(g, CreateSession(g.ledger, now, session)) == Ok(g')
    ensures GovLater(g, g', now)
  {
    assert forall s :: s in g.ledger.sessions ==> SessionOk(g.ledger, s);
  }

  lemma NewMemberMovesOn(g: Gov, g': Gov, now: uint64, s: nat, member: Address, house: House)
    requires LedgerOk(g.ledger)
    requires OnLedger(g, RegisterMember(g.ledger, now, s, member, house)) == Ok(g')
    ensures GovLater(g, g', now)
  {
  }

  /** A call on one proposal leaves the rest of the contract alone. */
  lemma CaseStepMovesOn(cfg: Config, g: Gov, g': Gov, now: uint64, call: Call, c: Case, c': Case)
    requires IsCaseCall(call) && call.p in g.cases && c == g.cases[call.p] && CaseOk(cfg, g.ledger, call.p, c, now)
    requires g'.ledger == g.ledger && g'.cases == g.cases[call.p := c'] && g'.cfpOf == g.cfpOf
    requires ApplyToCase(cfg, g.ledger, c, now, call) == Ok(c')
    ensures GovLater(g, g', now)
  {
    CaseCallMovesOn(cfg, g.ledger, c, c', now, call);
    CaseReplacedMovesOn(g, g', now, call.p, c');
  }

  lemma CaseReplacedMovesOn(g: Gov, g': Gov, now: uint64, p: nat, c': Case)
    requires p in g.cases && CaseLater(g.cases[p], c', now)
    requires g'.ledger == g.ledger && g'.cases == g.cases[p := c'] && g'.cfpOf == g.cfpOf
    ensures GovLater(g, g', now)
  {
  }

  lemma CallOnCaseMovesOn(cfg: Config, g: Gov, g': Gov, now: uint64, call: Call)
    requires GovOk(cfg, g, now) && IsCaseCall(call) && OnCase(cfg, g, now, call) == Ok(g')
    ensures GovLater(g, g', now)
  {
    hide LedgerOk, BindingsOk, LedgerLater, CaseLater;
    CaseStepMovesOn(cfg, g, g', now, call, g.cases[call.p], g'.cases[call.p]);
  }

  lemma LedgerCallMovesOn(g: Gov, g': Gov, now: uint64, call: Call)
    requires LedgerOk(g.ledger) && Shaped(g) && BindingsOk(g) && !IsCaseCall(call) && OnRegistry(g, now, call) == Ok(g')
    ensures GovLater(g, g', now)
  {
    hide LedgerOk, BindingsOk, LedgerLater, CaseLater;
    if call.CallCreateSession? {
      NewSessionMovesOn(g, g', now, call.session);
    } else if call.CallRegisterMember? {
      NewMemberMovesOn(g, g', now, call.s, call.member, call.house);
    } else if call.CallRegisterProposal? || call.CallRegisterCfpProposal? {
      NewProposalMovesOn(g, g', now, call.terms);
    } else {
      VoteMovesOn(g, g', now, call.p, call.intensity, call.member);
    }
  }

  /** No accepted call rewrites a registration, an approval, a queue time or a recorded execution. */
  lemma ApplyMovesOn(cfg: Config, g: Gov, g': Gov, now: uint64, call: Call)
    requires GovOk(cfg, g, now) && Apply(cfg, g, now, call) == Ok(g')
    ensures GovLater(g, g', now)
  {
    hide LedgerOk, BindingsOk, LedgerLater, CaseLater;
    if IsCaseCall(call) {
      CallOnCaseMovesOn(cfg, g, g', now, call);
    } else {
      LedgerCallMovesOn(g, g', now, call);
    }
  }

  // What time fixes

  /**
   What can no longer change from `since` on: the electorate of a session that has started, the
   review and deliberations once voting starts, and the ballots once it has ended.
   */
  ghost predicate Frozen(g: Gov, g': Gov, since: uint64) {
    && (forall s, m :: s in g.ledger.sessions && g.ledger.sessions[s].startsAt <= since ==>
          HouseOf(g'.ledger.houses, s, m) == HouseOf(g.ledger.houses, s, m))
    && (forall p :: p in g.cases && p in g.ledger.terms && g.ledger.terms[p].votingStartsAt <= since ==>
          && p in g'.cases && g'.cases[p].preVote == g.cases[p].preVote
          && g'.cases[p].creatorDeliberation == g.cases[p].creatorDeliberation
          && g'.cases[p].userDeliberation == g.cases[p].userDeliberation)
    && (forall p, m :: p in g.ledger.terms && g.ledger.terms[p].votingEndsAt <= since ==>
          SameBallot(g.ledger.ballots, g'.ledger.ballots, p, m))
    && forall m :: Read(g.nonces, m, 0) <= Read(g'.nonces, m, 0)
  }

  predicate SameBallot(b: map<(nat, Address), Ballot>, b': map<(nat, Address), Ballot>, p: nat, m: Address) {
    ((p, m) in b' <==> (p, m) in b) && ((p, m) in b ==> b'[(p, m)] == b[(p, m)])
  }

  lemma FrozenReflexive(g: Gov, since: uint64)
    ensures Frozen(g, g, since)
  {
  }

  lemma FrozenTransitive(a: Gov, b: Gov, c: Gov, early: uint64, late: uint64)
    requires early <= late && GovLater(a, b, early) && Frozen(a, b, early) && Frozen(b, c, late)
    requires forall p :: p in b.cases ==> p in b.ledger.terms
    ensures Frozen(a, c, early)
  {
    hide CaseLater;
    forall p, m | p in a.ledger.terms && a.ledger.terms[p].votingEndsAt <= early
      ensures SameBallot(a.ledger.ballots, c.ledger.ballots, p, m)
    {
      assert SameBallot(a.ledger.ballots, b.ledger.ballots, p, m) && SameBallot(b.ledger.ballots, c.ledger.ballots, p, m);
    }
  }

  lemma CaseCallFreezes(cfg: Config, g: Gov, g': Gov, now: uint64, call: Call)
    requires Shaped(g) && IsCaseCall(call) && OnCase(cfg, g, now, call) == Ok(g')
    ensures Frozen(g, g', now)
  {
    hide FinalizeProposal, QueueProposal, BeginExecution, RecordReview;
    var c, c' := g.cases[call.p], g'.cases[call.p];
    CaseKeepsDeliberation(cfg, g.ledger, c, c', now, call);
    hide ApplyToCase;
  }

  lemma CaseKeepsDeliberation(cfg: Config, l: Ledger, c: Case, c': Case, now: uint64, call: Call)
    requires IsCaseCall(call) && call.p in l.terms && l.terms[call.p].sessionId in l.sessions
    requires ApplyToCase(cfg, l, c, now, call) == Ok(c')
    ensures l.terms[call.p].votingStartsAt <= now ==>
      && c'.preVote == c.preVote
      && c'.creatorDeliberation == c.creatorDeliberation && c'.userDeliberation == c.userDeliberation
  {
  }

  lemma VoteFreezes(g: Gov, g': Gov, now: uint64, p: nat, intensity: int8, member: Address)
    requires Shaped(g) && p in g.cases && VotingBar(g.ledger.terms[p], g.cases[p], now).None?
    requires CastBallot(g.ledger, p, intensity, member) == Ok(g'.ledger) && g'.cases == g.cases
    requires forall m :: Read(g.nonces, m, 0) <= Read(g'.nonces, m, 0)
    ensures Frozen(g, g', now)
  {
    AcceptedBallot(g.ledger, g'.ledger, p, intensity, member, g'.ledger.ballots[(p, member)]);
    hide CastBallot;
  }

  /** A new member arrives before the session starts. */
  lemma AdmissionFreezes(g: Gov, l: Ledger, now: uint64, s: nat, member: Address, house: House)
    requires RegisterMember(g.ledger, now, s, member, house) == Ok(l)
    ensures Frozen(g, g.(ledger := l), now)
  {
  }

  lemma NewProposalFreezes(g: Gov, g': Gov, now: uint64, terms: Terms)
    requires LedgerOk(g.ledger) && Shaped(g) && RegisterProposal(g.ledger, now, terms) == Ok(g'.ledger)
    requires g'.cases == g.cases[g'.ledger.proposalCount := NEW_CASE] && g'.nonces == g.nonces
    ensures Frozen(g, g', now)
  {
    hide LedgerOk, BallotsOk;
    NewProposalBallots(g.ledger, g'.ledger, now, terms);
    assert g'.ledger.ballots == g.ledger.ballots && g'.ledger.houses == g.ledger.houses;
    hide RegisterProposal;
  }

  lemma RegistryCallFreezes(g: Gov, g': Gov, now: uint64, call: Call)
    requires LedgerOk(g.ledger) && Shaped(g) && !IsCaseCall(call) && OnRegistry(g, now, call) == Ok(g')
    ensures Frozen(g, g', now)
  {
    hide LedgerOk;
    if call.CallCreateSession? {
    } else if call.CallRegisterMember? {
      AdmissionFreezes(g, g'.ledger, now, call.s, call.member, call.house);
    } else if call.CallRegisterProposal? || call.CallRegisterCfpProposal? {
      hide Frozen;
      NewProposalFreezes(g, g', now, call.terms);
    } else {
      hide Frozen;
      VoteFreezes(g, g', now, call.p, call.intensity, call.member);
    }
  }

  /** Every accepted call respects what time has fixed. */
  lemma ApplyFreezes(cfg: Config, g: Gov, g': Gov, now: uint64, call: Call)
    requires LedgerOk(g.ledger) && Shaped(g) && Apply(cfg, g, now, call) == Ok(g')
    ensures Frozen(g, g', now)
  {
    hide LedgerOk, Frozen;
    if IsCaseCall(call) { CaseCallFreezes(cfg, g, g', now, call); } else { RegistryCallFreezes(g, g', now, call); }
  }

  // Lifecycle order

  function Order(s: ProposalState): nat {
    match s
    case PENDING => 0
    case VOTING => 1
    case AWAITING_FINALIZATION => 2
    case REJECTED => 3
    case JOINT_APPROVED => 3
    case REVIEWED => 4
    case TIMELOCKED => 5
    case EXPIRED => 6
    case EXECUTED => 7
    case CANCELLED => 7
  }

  /** What an observer can see after s. Rejection is final and an expired proposal can only be cancelled. */
  predicate CanFollow(s: ProposalState, s': ProposalState) {
    s == s' || (Order(s) < Order(s') && s != REJECTED && (s == EXPIRED ==> s' == CANCELLED))
  }

  /** What proposalState reports is exactly what the proposal's own calls will accept. */
  lemma StateSaysWhatIsPossible(cfg: Config, l: Ledger, p: nat, c: Case, now: uint64)
    requires CaseOk(cfg, l, p, c, now)
    ensures var (t, state) := (l.terms[p], StateOf(l.terms[p], c, now));
            && (VotingBar(t, c, now).None? <==> state == VOTING && Deliberated(c))
            && (FinalizeProposal(l, p, c, now).Ok? <==> state == AWAITING_FINALIZATION)
            && (QueueProposal(cfg, t, c, now).Ok? <==>
                  state == REVIEWED
                  && now as int + DelayFor(cfg, t.changeClass) as int + cfg.window as int < 0x1_0000_0000_0000_0000)
            && (BeginExecution(cfg, t, c, now, cfg.chainId, t.value, t.callDataHash).Ok? <==>
                  state == TIMELOCKED && c.executableAt <= now)
            && forall incident :: incident != 0 ==>
                 (CancelQueuedProposal(c, incident).Ok? <==> state == TIMELOCKED || state == EXPIRED)
  {
  }

  /** Over nondecreasing time the reported state only moves forward. */
  lemma StatesMoveForward(cfg: Config, l: Ledger, l': Ledger, p: nat, c: Case, c': Case, now: uint64, later: uint64)
    requires CaseOk(cfg, l, p, c, now) && CaseOk(cfg, l', p, c', later)
    requires l'.terms[p] == l.terms[p] && CaseLater(c, c', now) && now <= later
    ensures CanFollow(StateOf(l.terms[p], c, now), StateOf(l'.terms[p], c', later))
  {
    if c'.executed && !c.executed {
      assert RunOk(cfg, l.terms[p], c', c'.runs[0], later);
    }
  }

  /** Everything an execution rests on, and the one call it made, inside its window. */
  ghost predicate Earned(cfg: Config, l: Ledger, p: nat, c: Case)
    requires p in l.terms && l.terms[p].sessionId in l.sessions
  {
    && Deliberated(c)
    && HouseApproves(l, p, CreatorHouse) && HouseApproves(l, p, UserHouse)
    && Documented(c.preVote.value)
    && c.test.Some? && c.test.value.passed && Tested(l.terms[p], c.test.value)
    && c.reviewed && c.review != 0
    && (l.terms[p].changeClass == Constitutional ==> c.constitutional != 0)
    && !c.cancelled && |c.runs| == 1
    && var run, ready := c.runs[0], c.queuedAt as int + DelayFor(cfg, l.terms[p].changeClass) as int;
    && run.target == l.terms[p].target && run.value == l.terms[p].value
    && run.callDataHash == l.terms[p].callDataHash && run.chainId == cfg.chainId
    && l.terms[p].votingEndsAt <= c.queuedAt
    && ready <= run.at as int <= ready + cfg.window as int
  }

  /**
   The review and the deliberations are not checked by executeProposal or finalizeProposal:
   they follow because quorums are at least one, so somebody voted, and voting needs them.
   */
  lemma ExecutedProposalEarnedIt(cfg: Config, l: Ledger, p: nat, c: Case, now: uint64)
    requires LedgerOk(l) && CaseOk(cfg, l, p, c, now) && c.executed
    ensures Earned(cfg, l, p, c)
  {
    assert RunOk(cfg, l.terms[p], c, c.runs[0], now);
    assert SessionOk(l, l.terms[p].sessionId);
    assert HouseApproves(l, p, CreatorHouse);
    SomebodyVoted(l, p, CreatorHouse);
    var m :| (p, m) in l.ballots;
    assert Deliberated(c);
  }

  lemma SomebodyVoted(l: Ledger, p: nat, h: House)
    requires p in l.terms && Voters(l, p, h) != {}
    ensures exists m :: (p, m) in l.ballots
  {
  }
}
