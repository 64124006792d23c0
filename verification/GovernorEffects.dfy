/**
 Exactly when the governor accepts each call and exactly what the call then changes, stated in the
 contract's own fields and without the helpers the rules are written with.
 */
module GovernorEffects {
  import opened Common
  import opened FiniteSums
  import opened GovernorRules
  import opened GovernorInvariants

  lemma WhenSessionOpens(cfg: Config, g: Gov, now: uint64, session: Session)
    requires Shaped(g)
    ensures var (r, l, id) := (Apply(cfg, g, now, CallCreateSession(session)), g.ledger, g.ledger.sessionCount + 1);
            && (r.Ok? <==>
                  && session.ruleHash != 0 && now < session.startsAt < session.endsAt
                  && session.budget >= 1 && session.creatorQuorum >= 1 && session.userQuorum >= 1)
            && (r.Ok? ==> r.value == g.(ledger := l.(sessionCount := id, sessions := l.sessions[id := session])))
  {
  }

  lemma WhenMemberJoins(cfg: Config, g: Gov, now: uint64, s: nat, member: Address, house: House)
    requires Shaped(g)
    ensures var (r, l) := (Apply(cfg, g, now, CallRegisterMember(s, member, house)), g.ledger);
            && (r.Ok? <==>
                  && s in l.sessions && now < l.sessions[s].startsAt && member != 0
                  && (house == CreatorHouse || house == UserHouse)
                  && ((s, member) in l.houses ==> l.houses[(s, member)] == NoHouse))
            && (r.Ok? ==> r.value == g.(ledger := l.(houses := l.houses[(s, member) := house])))
  {
  }

  /** What a registrar has to hand in. */
  predicate Registrable(l: Ledger, now: uint64, t: Terms) {
    && t.sessionId in l.sessions && t.contentHash != 0 && t.specificationHash != 0 && t.manifestHash != 0
    && t.callDataHash != 0 && t.target != 0 && t.changeClass != NoClass && now < t.votingStartsAt
    && l.sessions[t.sessionId].startsAt <= t.votingStartsAt < t.votingEndsAt <= l.sessions[t.sessionId].endsAt
  }

  /** The terms are stored as they were handed in, under the next number and with an empty history. */
  lemma WhenProposalIsRegistered(cfg: Config, g: Gov, now: uint64, t: Terms)
    requires Shaped(g)
    ensures var (r, l, id) := (Apply(cfg, g, now, CallRegisterProposal(t)), g.ledger, g.ledger.proposalCount + 1);
            && (r.Ok? <==> Registrable(l, now, t))
            && (r.Ok? ==> r.value == g.(ledger := l.(proposalCount := id, terms := l.terms[id := t]),
                                        cases := g.cases[id := Case(None, 0, 0, false, false, false, None, 0, 0, false,
                                                                    false, 0, 0, 0, false, false, [])]))
  {
  }

  lemma WhenCfpProposalIsRegistered(cfg: Config, g: Gov, now: uint64, cfp: Hash, revision: uint32, t: Terms)
    requires Shaped(g)
    ensures var (r, l, id) := (Apply(cfg, g, now, CallRegisterCfpProposal(cfp, revision, t)), g.ledger, g.ledger.proposalCount + 1);
            && (r.Ok? <==> Registrable(l, now, t) && cfp != 0 && revision != 0 && (cfp, revision) !in g.cfpProposal)
            && (r.Ok? ==> r.value == g.(ledger := l.(proposalCount := id, terms := l.terms[id := t]),
                                        cases := g.cases[id := Case(None, 0, 0, false, false, false, None, 0, 0, false,
                                                                    false, 0, 0, 0, false, false, [])],
                                        cfpOf := g.cfpOf[id := (cfp, revision)],
                                        cfpProposal := g.cfpProposal[(cfp, revision) := id]))
  {
  }

  // Ballots

  /** The ballot is stored under its member at its square and nothing else moves. */
  ghost predicate Stores(g: Gov, g': Gov, p: nat, intensity: int8, member: Address) {
    exists cost: uint32 ::
      && cost as int == intensity as int * intensity as int
      && g' == g.(ledger := g.ledger.(ballots := g.ledger.ballots[(p, member) := Ballot(intensity, cost)]))
  }

  lemma WhenBallotIsStored(g: Gov, now: uint64, p: nat, intensity: int8, member: Address)
    requires LedgerOk(g.ledger) && Shaped(g)
    ensures var r := CastVote(g, now, p, intensity, member);
            (r.Ok? <==> Countable(g, now, p, intensity, member)) && (r.Ok? ==> Stores(g, r.value, p, intensity, member))
  {
    hide LedgerOk, Countable, CastBallot, VotingBar;
    WhenVoteCounts(g, now, p, intensity, member);
    var r := CastVote(g, now, p, intensity, member);
    if r.Ok? { SquareIsStored(g.ledger, r.value.ledger, p, intensity, member); }
  }

  lemma SquareIsStored(l: Ledger, l': Ledger, p: nat, intensity: int8, member: Address)
    requires p in l.terms && l.terms[p].sessionId in l.sessions && CastBallot(l, p, intensity, member) == Ok(l')
    ensures exists cost: uint32 ::
      && cost as int == intensity as int * intensity as int
      && l' == l.(ballots := l.ballots[(p, member) := Ballot(intensity, cost)])
  {
    hide Spent, Voters;
    var cost := (intensity as int * intensity as int) as uint32;
    assert l' == l.(ballots := l.ballots[(p, member) := Ballot(intensity, cost)]);
  }

  /** A vote on a CFP proposal, handed in by the member. */
  lemma WhenCfpVoteCounts(cfg: Config, g: Gov, now: uint64, p: nat, intensity: int8, member: Address)
    requires LedgerOk(g.ledger) && Shaped(g)
    ensures var r := Apply(cfg, g, now, CallCastCfpApprovalVote(p, intensity, member));
            && (r.Ok? <==> p in g.cfpOf && Countable(g, now, p, intensity, member))
            && (r.Ok? ==> Stores(g, r.value, p, intensity, member))
  {
    WhenBallotIsStored(g, now, p, intensity, member);
    hide LedgerOk, Countable, Stores, CastVote;
  }

  /**
   A relayed ballot counts exactly if its member signed it, in time, with the next nonce, for the session and House
   it is in, on a CFP proposal, and the member could cast it. It is stored as that member's and spends the nonce.
   */
  lemma WhenSignedVoteCounts(cfg: Config, g: Gov, now: uint64, vote: Call)
    requires LedgerOk(g.ledger) && Shaped(g) && vote.CallCastVoteBySig?
    ensures var (r, m) := (Apply(cfg, g, now, vote), vote.member);
            && (r.Ok? <==>
                  && vote.signer == m && now as nat <= vote.deadline && vote.nonce == Read(g.nonces, m, 0)
                  && vote.p in g.cfpOf && vote.p in g.ledger.terms && g.ledger.terms[vote.p].sessionId == vote.s
                  && Read(g.ledger.houses, (vote.s, m), NoHouse) == vote.house
                  && Countable(g, now, vote.p, vote.intensity, m))
            && (r.Ok? ==> Stores(g.(nonces := g.nonces[m := vote.nonce + 1]), r.value, vote.p, vote.intensity, m))
  {
    hide LedgerOk, Stores, CastVote, Countable;
    var later := g.(nonces := g.nonces[vote.member := vote.nonce + 1]);
    WhenBallotIsStored(later, now, vote.p, vote.intensity, vote.member);
    SameForNonces(g, later, now, vote.p, vote.intensity, vote.member);
  }

  lemma SameForNonces(g: Gov, later: Gov, now: uint64, p: nat, intensity: int8, member: Address)
    requires Shaped(g) && later == g.(nonces := later.nonces)
    ensures Shaped(later) && Countable(later, now, p, intensity, member) == Countable(g, now, p, intensity, member)
  {
    hide Spent, Voters;
  }

  // One proposal's lifecycle

  /** One proposal's case becomes c'; nothing else moves. */
  predicate Turns(g: Gov, g': Gov, p: nat, c': Case) { g' == g.(cases := g.cases[p := c']) }

  lemma WhenReviewIsRecorded(cfg: Config, g: Gov, now: uint64, p: nat, review: PreVoteReview)
    requires Shaped(g)
    ensures var r := Apply(cfg, g, now, CallPreVoteReview(p, review));
            && (r.Ok? <==>
                  && p in g.cases && p in g.ledger.terms && now < g.ledger.terms[p].votingStartsAt && g.cases[p].preVote == None
                  && review.charterHash != 0 && review.legalHash != 0 && review.assessmentHash != 0)
            && (r.Ok? ==> Turns(g, r.value, p, g.cases[p].(preVote := Some(review))))
  {
  }

  /** A House's evidence is stored as that House's. */
  lemma WhenHouseDeliberates(cfg: Config, g: Gov, now: uint64, p: nat, house: House, evidence: Hash)
    requires Shaped(g)
    ensures var r := Apply(cfg, g, now, CallDeliberation(p, house, evidence));
            && (r.Ok? <==>
                  && p in g.cases && p in g.ledger.terms && now < g.ledger.terms[p].votingStartsAt
                  && g.cases[p].preVote.Some? && g.cases[p].preVote.value.passed && evidence != 0
                  && ((house == CreatorHouse && g.cases[p].creatorDeliberation == 0)
                      || (house == UserHouse && g.cases[p].userDeliberation == 0)))
            && (r.Ok? && house == CreatorHouse ==> Turns(g, r.value, p, g.cases[p].(creatorDeliberation := evidence)))
            && (r.Ok? && house == UserHouse ==> Turns(g, r.value, p, g.cases[p].(userDeliberation := evidence)))
  {
  }

  /** A House carries a proposal with at least a quorum of voters and a positive sum of their intensities. */
  ghost predicate Carries(l: Ledger, p: nat, voters: set<Address>, quorum: uint32) {
    |voters| >= quorum as int && Sum(voters, IntensitiesOn(l.ballots, p)) > 0
  }

  lemma WhenFinalized(cfg: Config, g: Gov, now: uint64, p: nat)
    requires Shaped(g)
    ensures var r := Apply(cfg, g, now, CallFinalize(p));
            && (r.Ok? <==>
                  && p in g.cases && p in g.ledger.terms && !g.cases[p].finalized && !g.cases[p].cancelled
                  && !g.cases[p].executed && g.ledger.terms[p].votingEndsAt <= now)
            && (r.Ok? ==>
                  var (l, session) := (g.ledger, g.ledger.sessions[g.ledger.terms[p].sessionId]);
                  Turns(g, r.value, p,
                        g.cases[p].(finalized := true,
                                    creatorApproved := Carries(l, p, Voters(l, p, CreatorHouse), session.creatorQuorum),
                                    userApproved := Carries(l, p, Voters(l, p, UserHouse), session.userQuorum))))
  {
  }

  lemma WhenTestIsRecorded(cfg: Config, g: Gov, now: uint64, p: nat, test: TestEvidence)
    requires Shaped(g)
    ensures var r := Apply(cfg, g, now, CallTestEvidence(p, test));
            && (r.Ok? <==>
                  && p in g.cases && p in g.ledger.terms
                  && var c := g.cases[p];
                  && c.finalized && c.creatorApproved && c.userApproved && c.test == None
                  && !c.reviewed && !c.queued && !c.cancelled && !c.executed
                  && test.sourceHash != 0 && test.artifactHash != 0 && test.suiteHash != 0 && test.reportHash != 0
                  && test.testedCallDataHash != 0 && test.testedCallDataHash == g.ledger.terms[p].callDataHash)
            && (r.Ok? ==> Turns(g, r.value, p, g.cases[p].(test := Some(test))))
  {
  }

  lemma WhenConstitutionalEvidenceCounts(cfg: Config, g: Gov, now: uint64, p: nat, evidence: Hash)
    requires Shaped(g)
    ensures var r := Apply(cfg, g, now, CallConstitutional(p, evidence));
            && (r.Ok? <==>
                  && p in g.cases && p in g.ledger.terms && g.ledger.terms[p].changeClass == Constitutional && evidence != 0
                  && var c := g.cases[p];
                  && c.finalized && c.creatorApproved && c.userApproved
                  && !c.reviewed && !c.queued && !c.cancelled && !c.executed)
            && (r.Ok? ==> Turns(g, r.value, p, g.cases[p].(constitutional := evidence)))
  {
  }

  lemma WhenReviewed(cfg: Config, g: Gov, now: uint64, p: nat, evidence: Hash)
    requires Shaped(g)
    ensures var r := Apply(cfg, g, now, CallReview(p, evidence));
            && (r.Ok? <==>
                  && p in g.cases && p in g.ledger.terms && evidence != 0
                  && var c := g.cases[p];
                  && c.finalized && c.creatorApproved && c.userApproved && !c.queued && !c.cancelled && !c.executed
                  && c.test.Some? && c.test.value.passed
                  && (g.ledger.terms[p].changeClass == Constitutional ==> c.constitutional != 0))
            && (r.Ok? ==> Turns(g, r.value, p, g.cases[p].(review := evidence, reviewed := true)))
  {
  }

  /** Queueing starts the delay of the proposal's class, and the window opens when the delay is over. */
  lemma WhenQueued(cfg: Config, g: Gov, now: uint64, p: nat)
    requires Shaped(g)
    ensures var r := Apply(cfg, g, now, CallQueue(p));
            && (r.Ok? <==>
                  && p in g.cases && p in g.ledger.terms
                  && var c := g.cases[p];
                  && c.finalized && c.creatorApproved && c.userApproved && c.reviewed && !c.queued && !c.cancelled && !c.executed
                  && match g.ledger.terms[p].changeClass
                     case NoClass => false
                     case Parameter => now as int + cfg.p1Delay as int + cfg.window as int < 0x1_0000_0000_0000_0000
                     case Upgrade => now as int + cfg.p2Delay as int + cfg.window as int < 0x1_0000_0000_0000_0000
                     case Constitutional => now as int + cfg.p3Delay as int + cfg.window as int < 0x1_0000_0000_0000_0000)
            && (r.Ok? ==>
                  && p in r.value.cases
                  && var (c', kind) := (r.value.cases[p], g.ledger.terms[p].changeClass);
                  && Turns(g, r.value, p, g.cases[p].(queued := true, queuedAt := now, executableAt := c'.executableAt,
                                                      expiresAt := c'.expiresAt))
                  && (kind == Parameter ==> c'.executableAt as int == now as int + cfg.p1Delay as int)
                  && (kind == Upgrade ==> c'.executableAt as int == now as int + cfg.p2Delay as int)
                  && (kind == Constitutional ==> c'.executableAt as int == now as int + cfg.p3Delay as int)
                  && c'.expiresAt as int == c'.executableAt as int + cfg.window as int)
  {
  }

  /** Execution calls the registered target with the registered value and payload. */
  lemma WhenExecutionBegins(cfg: Config, g: Gov, now: uint64, p: nat, chainId: nat, value: nat, callDataHash: Hash)
    requires Shaped(g)
    ensures var r := Apply(cfg, g, now, CallBeginExecution(p, chainId, value, callDataHash));
            && (r.Ok? <==>
                  && !g.entered && p in g.cases && p in g.ledger.terms && chainId == cfg.chainId
                  && var (c, t) := (g.cases[p], g.ledger.terms[p]);
                  && c.queued && !c.cancelled && !c.executed && c.executableAt <= now <= c.expiresAt
                  && value == t.value && callDataHash == t.callDataHash)
            && (r.Ok? ==>
                  var (c, t) := (g.cases[p], g.ledger.terms[p]);
                  Turns(g.(entered := true), r.value, p,
                        c.(executed := true,
                           runs := c.runs + [Execution(t.target, t.value, t.callDataHash, cfg.chainId, now)])))
  {
  }

  lemma WhenCancelled(cfg: Config, g: Gov, now: uint64, p: nat, incident: Hash)
    requires Shaped(g)
    ensures var r := Apply(cfg, g, now, CallCancel(p, incident));
            && (r.Ok? <==>
                  p in g.cases && g.cases[p].queued && !g.cases[p].cancelled && !g.cases[p].executed && incident != 0)
            && (r.Ok? ==> Turns(g, r.value, p, g.cases[p].(cancelled := true)))
  {
  }

  /** What each reported state says about a proposal, in its own fields. */
  lemma WhatStateIsReported(cfg: Config, l: Ledger, p: nat, c: Case, now: uint64)
    requires CaseOk(cfg, l, p, c, now)
    ensures var (t, state) := (l.terms[p], StateOf(l.terms[p], c, now));
            && (state == EXECUTED <==> c.executed)
            && (state == CANCELLED <==> c.cancelled)
            && (state == EXPIRED <==> c.queued && !c.executed && !c.cancelled && c.expiresAt < now)
            && (state == TIMELOCKED <==> c.queued && !c.executed && !c.cancelled && now <= c.expiresAt)
            && (state == REVIEWED <==> c.reviewed && !c.queued)
            && (state == JOINT_APPROVED <==> c.finalized && c.creatorApproved && c.userApproved && !c.reviewed)
            && (state == REJECTED <==> c.finalized && !(c.creatorApproved && c.userApproved))
            && (state == AWAITING_FINALIZATION <==> !c.finalized && t.votingEndsAt <= now)
            && (state == VOTING <==> !c.finalized && t.votingStartsAt <= now < t.votingEndsAt)
            && (state == PENDING <==> !c.finalized && now < t.votingStartsAt)
  {
  }
}
