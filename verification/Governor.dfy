/**
 The governor as the contract runs it: mappings updated in place, with a running tally per
 proposal and a running ledger per member. Every method is proved to do exactly what the
 recounting rules of GovernorRules say, and never to overflow its machine words on the way.
 */
module Governor {
  import opened Common
  import opened GovernorRules
  import opened Recounts
  import opened GovernorInvariants
  import opened GovernorEffects

  /** The counters the contract keeps per proposal. */
  datatype Tally = Tally(creatorScore: int64, userScore: int64, creatorParticipants: uint32, userParticipants: uint32)

  /** The counters equal a recount of every ballot on the proposal. */
  ghost predicate TallyOk(l: Ledger, p: nat, t: Tally)
    requires p in l.terms
  {
    && t.creatorScore as int == Score(l, p, CreatorHouse)
    && t.userScore as int == Score(l, p, UserHouse)
    && t.creatorParticipants as int == |Voters(l, p, CreatorHouse)|
    && t.userParticipants as int == |Voters(l, p, UserHouse)|
  }

  ghost predicate TalliesOk(l: Ledger, tallies: map<nat, Tally>) {
    tallies.Keys == l.terms.Keys && forall p :: p in l.terms ==> TallyOk(l, p, tallies[p])
  }

  /** Every ledger entry equals the sum of that member's ballot costs over the session's proposals. */
  ghost predicate SpentOk(l: Ledger, spent: map<(nat, Address), uint32>) {
    forall s, m :: s in l.sessions ==> Read(spent, (s, m), 0) as int == Spent(l, s, m)
  }

  ghost predicate CountersOk(l: Ledger, tallies: map<nat, Tally>, spent: map<(nat, Address), uint32>) {
    TalliesOk(l, tallies) && SpentOk(l, spent)
  }

  /** A reverting transaction reports its error and leaves no trace. */
  ghost predicate Follows(rule: Result<Gov, Error>, failure: Option<Error>, before: Gov, after: Gov) {
    match rule
    case Ok(g) => failure == None && after == g
    case Revert(e) => failure == Some(e) && after == before
  }

  // How the counters follow the ledger

  lemma SessionCounters(l: Ledger, now: uint64, session: Session, tallies: map<nat, Tally>,
                        spent: map<(nat, Address), uint32>)
    requires LedgerOk(l) && CountersOk(l, tallies, spent)
    requires forall k :: k in spent ==> k.0 in l.sessions
    ensures var r := CreateSession(l, now, session);
            r.Ok? ==>
              LedgerOk(r.value) && CountersOk(r.value, tallies, spent) && r.value.sessionCount !in l.sessions
  {
    var r := CreateSession(l, now, session);
    if r.Ok? {
      CreateSessionKeeps(l, now, session);
      var l' := r.value;
      assert l'.sessionCount !in l.sessions by {
        assert forall s :: s in l.sessions ==> SessionOk(l, s);
      }
      forall s, m | s in l'.sessions ensures Read(spent, (s, m), 0) as int == Spent(l', s, m) {
        if s == l'.sessionCount {
          assert ProposalsOf(l'.terms, s) == {};
        } else {
          assert Spent(l', s, m) == Spent(l, s, m);
        }
      }
      assert forall p :: p in l.terms ==> SameRecount(l, l', p);
    }
  }

  lemma SameTallies(l: Ledger, l': Ledger, tallies: map<nat, Tally>)
    requires TalliesOk(l, tallies) && l'.terms == l.terms
    requires forall p :: p in l.terms ==> SameRecount(l, l', p)
    ensures TalliesOk(l', tallies)
  {
    hide Voters, Score;
    forall p | p in l.terms ensures TallyOk(l', p, tallies[p]) {
      assert SameRecount(l, l', p);
    }
  }

  lemma MemberCounters(l: Ledger, now: uint64, s: nat, member: Address, house: House, tallies: map<nat, Tally>,
                       spent: map<(nat, Address), uint32>)
    requires LedgerOk(l) && CountersOk(l, tallies, spent)
    ensures var r := RegisterMember(l, now, s, member, house);
            r.Ok? ==> LedgerOk(r.value) && CountersOk(r.value, tallies, spent)
  {
    hide LedgerOk, TalliesOk, Spent;
    var r := RegisterMember(l, now, s, member, house);
    if r.Ok? {
      RegisterMemberKeeps(l, now, s, member, house);
      var l' := r.value;
      SameSpent(l, l');
      SameTallies(l, l', tallies);
    }
  }

  const NO_VOTES := Tally(0, 0, 0, 0)

  lemma NoVotesYet(l: Ledger, p: nat)
    requires p in l.terms && forall m :: (p, m) !in l.ballots
    ensures TallyOk(l, p, NO_VOTES)
  {
  }

  lemma ProposalTallies(l: Ledger, l': Ledger, now: uint64, terms: Terms, tallies: map<nat, Tally>)
    requires LedgerOk(l) && TalliesOk(l, tallies) && RegisterProposal(l, now, terms) == Ok(l')
    ensures TalliesOk(l', tallies[l'.proposalCount := NO_VOTES])
  {
    hide LedgerOk, BallotsOk, SameRecount, TermsOk;
    var id, later := l'.proposalCount, tallies[l'.proposalCount := NO_VOTES];
    assert l'.ballots == l.ballots && l'.houses == l.houses;
    NewProposalBallots(l, l', now, terms);
    forall p | p in l'.terms ensures p in later && TallyOk(l', p, later[p]) {
      if p == id {
        NoVotesYet(l', id);
      } else {
        NewProposalRecounts(l, l', now, terms, p);
      }
    }
  }

  lemma ProposalSpent(l: Ledger, l': Ledger, now: uint64, terms: Terms, spent: map<(nat, Address), uint32>)
    requires LedgerOk(l) && SpentOk(l, spent) && RegisterProposal(l, now, terms) == Ok(l')
    ensures SpentOk(l', spent)
  {
    forall s, m | s in l'.sessions ensures Read(spent, (s, m), 0) as int == Spent(l', s, m) {
      NewProposalSpends(l, l', now, terms, s, m);
    }
  }

  lemma ProposalCounters(l: Ledger, l': Ledger, now: uint64, terms: Terms, tallies: map<nat, Tally>,
                         spent: map<(nat, Address), uint32>)
    requires LedgerOk(l) && CountersOk(l, tallies, spent) && RegisterProposal(l, now, terms) == Ok(l')
    ensures LedgerOk(l') && CountersOk(l', tallies[l'.proposalCount := NO_VOTES], spent)
  {
    RegisterProposalKeeps(l, l', now, terms);
    ProposalTallies(l, l', now, terms, tallies);
    ProposalSpent(l, l', now, terms, spent);
  }

  /** One House's two counters after a vote; the contract's `+= 1` and its score difference. */
  lemma VoteTally(l: Ledger, p: nat, m: Address, b: Ballot, h: House)
    requires p in l.terms && BallotsOk(l.ballots, l.houses, l.terms) && -9 <= b.intensity <= 9
    ensures var l' := l.(ballots := l.ballots[(p, m) := b]);
            var mine := HouseOf(l.houses, l.terms[p].sessionId, m) == h;
            && Score(l', p, h) == Score(l, p, h) + (if mine then b.intensity as int - IntensityOf(l.ballots, p, m) else 0)
            && |Voters(l', p, h)| == |Voters(l, p, h)| + (if mine && (p, m) !in l.ballots then 1 else 0)
            && -9 * |Voters(l, p, h)| <= Score(l, p, h) <= 9 * |Voters(l, p, h)|
            && -9 <= IntensityOf(l.ballots, p, m) <= 9
  {
    ScoreAfterVote(l.ballots, l.houses, l.terms[p].sessionId, p, m, b, h);
    ScoreBound(l.ballots, Voters(l, p, h), p);
  }

  lemma VoteElsewhereTally(l: Ledger, p: nat, m: Address, b: Ballot, q: nat, t: Tally)
    requires q in l.terms && q != p && TallyOk(l, q, t)
    ensures TallyOk(l.(ballots := l.ballots[(p, m) := b]), q, t)
  {
    forall h {
      RecountElsewhere(l.ballots, l.houses, l.terms[q].sessionId, p, m, b, q, h);
    }
  }

  lemma VoteSpent(l: Ledger, p: nat, m: Address, b: Ballot, spent: map<(nat, Address), uint32>, mine: uint32)
    requires p in l.terms && l.terms[p].sessionId in l.sessions && SpentOk(l, spent)
    requires mine as int == Spent(l, l.terms[p].sessionId, m) - CostOf(l.ballots, p, m) + b.cost as int
    ensures SpentOk(l.(ballots := l.ballots[(p, m) := b]), spent[(l.terms[p].sessionId, m) := mine])
  {
    forall s, x | s in l.sessions
      ensures Read(spent[(l.terms[p].sessionId, m) := mine], (s, x), 0) as int
              == Spent(l.(ballots := l.ballots[(p, m) := b]), s, x)
    {
      SpentAfterVote(l.ballots, ProposalsOf(l.terms, s), p, m, b, x);
    }
  }

  /** The voter's House moves its two counters; the other House's counters stand still. */
  predicate Moved(t: Tally, t': Tally, house: House, shift: int, first: int) {
    if house == CreatorHouse then
      && t'.creatorScore as int == t.creatorScore as int + shift
      && t'.creatorParticipants as int == t.creatorParticipants as int + first
      && t'.userScore == t.userScore && t'.userParticipants == t.userParticipants
    else
      && t'.userScore as int == t.userScore as int + shift
      && t'.userParticipants as int == t.userParticipants as int + first
      && t'.creatorScore == t.creatorScore && t'.creatorParticipants == t.creatorParticipants
  }

  lemma VotedTally(l: Ledger, p: nat, m: Address, b: Ballot, t: Tally, t': Tally)
    requires LedgerOk(l) && p in l.terms && TallyOk(l, p, t) && -9 <= b.intensity <= 9
    requires HouseOf(l.houses, l.terms[p].sessionId, m) != NoHouse
    requires Moved(t, t', HouseOf(l.houses, l.terms[p].sessionId, m),
                   b.intensity as int - IntensityOf(l.ballots, p, m), if (p, m) in l.ballots then 0 else 1)
    ensures TallyOk(l.(ballots := l.ballots[(p, m) := b]), p, t')
  {
    VoteTally(l, p, m, b, CreatorHouse);
    VoteTally(l, p, m, b, UserHouse);
    hide LedgerOk, Score, Voters;
  }

  lemma VoteTallies(l: Ledger, l': Ledger, p: nat, m: Address, b: Ballot, tallies: map<nat, Tally>, t': Tally)
    requires p in l.terms && TalliesOk(l, tallies)
    requires l' == l.(ballots := l.ballots[(p, m) := b]) && TallyOk(l', p, t')
    ensures TalliesOk(l', tallies[p := t'])
  {
    hide TallyOk;
    forall q | q in l.terms && q != p ensures TallyOk(l', q, tallies[q]) {
      VoteElsewhereTally(l, p, m, b, q, tallies[q]);
    }
  }

  /** An accepted ballot and the three mapping updates that record it keep storage and rules together. */
  lemma CountedVote(l: Ledger, l': Ledger, p: nat, intensity: int8, m: Address, b: Ballot,
                    tallies: map<nat, Tally>, t': Tally, spent: map<(nat, Address), uint32>, mine: uint32)
    requires LedgerOk(l) && CountersOk(l, tallies, spent) && p in l.terms && l.terms[p].sessionId in l.sessions
    requires l'.ballots == l.ballots[(p, m) := b] && CastBallot(l, p, intensity, m) == Ok(l')
    requires p in tallies
    requires Moved(tallies[p], t', HouseOf(l.houses, l.terms[p].sessionId, m),
                   intensity as int - IntensityOf(l.ballots, p, m), if (p, m) in l.ballots then 0 else 1)
    requires mine as int == Spent(l, l.terms[p].sessionId, m) - CostOf(l.ballots, p, m) + b.cost as int
    ensures LedgerOk(l') && CountersOk(l', tallies[p := t'], spent[(l.terms[p].sessionId, m) := mine])
  {
    hide LedgerOk, TallyOk;
    AcceptedBallot(l, l', p, intensity, m, b);
    CastBallotKeeps(l, l', p, intensity, m);
    VotedTally(l, p, m, b, tallies[p], t');
    VoteTallies(l, l', p, m, b, tallies, t');
    VoteSpent(l, p, m, b, spent, mine);
  }

  /** Scores stay within nine per participant and a ballot's cost is part of its caster's ledger. */
  lemma CounterBounds(l: Ledger, p: nat, m: Address, t: Tally)
    requires LedgerOk(l) && p in l.terms && TallyOk(l, p, t)
    ensures -9 * t.creatorParticipants as int <= t.creatorScore as int <= 9 * t.creatorParticipants as int
    ensures -9 * t.userParticipants as int <= t.userScore as int <= 9 * t.userParticipants as int
    ensures CostOf(l.ballots, p, m) <= Spent(l, l.terms[p].sessionId, m)
    ensures -9 <= IntensityOf(l.ballots, p, m) <= 9
  {
    ScoreBound(l.ballots, Voters(l, p, CreatorHouse), p);
    ScoreBound(l.ballots, Voters(l, p, UserHouse), p);
    SpentCoversEach(l.ballots, ProposalsOf(l.terms, l.terms[p].sessionId), p, m);
  }

  /** The cost is computed from the absolute intensity in uint32. */
  method QuadraticCost(intensity: int8) returns (cost: uint32)
    requires -9 <= intensity <= 9
    ensures cost as int == intensity as int * intensity as int
  {
    var absolute: uint32 := if intensity < 0 then (-intensity) as uint32 else intensity as uint32;
    cost := absolute * absolute;
  }

  /** One vote on the counters: participants += 1 on a first ballot, score - old + new in the voter's House. */
  method Count(tally: Tally, house: House, cast: bool, before: int8, intensity: int8)
    returns (full: bool, counted: Tally)
    requires house != NoHouse && -9 <= before <= 9 && -9 <= intensity <= 9
    requires -9 * tally.creatorParticipants as int <= tally.creatorScore as int <= 9 * tally.creatorParticipants as int
    requires -9 * tally.userParticipants as int <= tally.userScore as int <= 9 * tally.userParticipants as int
    ensures full <==> !cast && 0xFFFF_FFFF == if house == CreatorHouse then tally.creatorParticipants else tally.userParticipants
    ensures !full ==> Moved(tally, counted, house, intensity as int - before as int, if cast then 0 else 1)
  {
    full, counted := false, tally;
    if house == CreatorHouse {
      if !cast {
        if counted.creatorParticipants == 0xFFFF_FFFF { return true, tally; }
        counted := counted.(creatorParticipants := counted.creatorParticipants + 1);
      }
      counted := counted.(creatorScore := counted.creatorScore - before as int64 + intensity as int64);
    } else {
      if !cast {
        if counted.userParticipants == 0xFFFF_FFFF { return true, tally; }
        counted := counted.(userParticipants := counted.userParticipants + 1);
      }
      counted := counted.(userScore := counted.userScore - before as int64 + intensity as int64);
    }
  }

  class Governor {
    const cfg: Config
    var sessionCount: nat
    var sessions: map<nat, Session>
    var memberHouse: map<(nat, Address), House>
    var spentVoiceCredits: map<(nat, Address), uint32>
    var proposalCount: nat
    var terms: map<nat, Terms>
    var tallies: map<nat, Tally>
    var cases: map<nat, Case>
    var ballots: map<(nat, Address), Ballot>
    var proposalCfp: map<nat, (Hash, uint32)>
    var cfpProposalId: map<(Hash, uint32), nat>
    var votingNonces: map<Address, nat>
    var entered: bool

    ghost function Ledger(): Ledger
      reads this
    {
      GovernorRules.Ledger.Ledger(sessionCount, sessions, memberHouse, proposalCount, terms, ballots)
    }

    /** What the contract's storage means to the rules. */
    ghost function State(): Gov
      reads this
    {
      Gov(Ledger(), cases, proposalCfp, cfpProposalId, votingNonces, entered)
    }

    /** What the rules make of a call in the current state. */
    ghost function Rule(now: uint64, call: Call): Result<Gov, Error>
      requires Stored()
      reads this
    {
      Apply(cfg, State(), now, call)
    }

    /** The counters in storage agree with the ballots. */
    ghost predicate Stored()
      reads this
    {
      && Configured(cfg) && LedgerOk(Ledger()) && Shaped(State()) && CountersOk(Ledger(), tallies, spentVoiceCredits)
      && forall k :: k in spentVoiceCredits ==> k.0 in sessions
    }

    /** Storage is in order and every invariant of the contract holds, from this time on. */
    ghost predicate Valid(now: uint64)
      reads this
    {
      Stored() && GovOk(cfg, State(), now)
    }

    lemma LaterClock(before: uint64, now: uint64)
      requires Valid(before) && before <= now
      ensures Valid(now)
    {
      hide Stored;
      GovernorInvariants.LaterClock(cfg, State(), before, now);
    }

    /** A call that did what the rules say keeps every invariant. */
    lemma Kept(before: Gov, now: uint64, call: Call)
      requires GovOk(cfg, before, now) && Apply(cfg, before, now, call) == Ok(State())
      ensures GovOk(cfg, State(), now)
    {
      ApplyKeeps(cfg, before, State(), now, call);
    }

    /** The source's constructor reverts on any other configuration. */
    constructor (config: Config)
      requires Configured(config)
      ensures Stored() && State() == DEPLOYED && cfg == config
      ensures forall now :: Valid(now)
    {
      cfg := config;
      sessionCount, sessions, memberHouse, spentVoiceCredits := 0, map[], map[], map[];
      proposalCount, terms, tallies, cases, ballots := 0, map[], map[], map[], map[];
      proposalCfp, cfpProposalId, votingNonces, entered := map[], map[], map[], false;
      new;
      forall now ensures GovOk(cfg, State(), now) { DeployedOk(cfg, now); }
    }

    method CreateSession(now: uint64, session: Session) returns (failure: Option<Error>, id: nat)
      requires Valid(now)
      modifies this
      ensures Valid(now)
      ensures Follows(old(Rule(now, CallCreateSession(session))), failure, old(State()), State())
      ensures failure == None ==> id == old(sessionCount) + 1 && id !in old(sessions) && sessions == old(sessions)[id := session]
    {
      hide LedgerOk, CountersOk, GovOk;
      id := 0;
      if session.ruleHash == 0 { return Some(InvalidHash), id; }
      if session.startsAt <= now || session.endsAt <= session.startsAt { return Some(InvalidTimeRange), id; }
      if session.budget == 0 || session.creatorQuorum == 0 || session.userQuorum == 0 {
        return Some(InvalidConfiguration), id;
      }
      SessionCounters(Ledger(), now, session, tallies, spentVoiceCredits);
      sessionCount := sessionCount + 1;
      id := sessionCount;
      sessions := sessions[id := session];
      failure := None;
      Kept(old(State()), now, CallCreateSession(session));
    }

    method RegisterMember(now: uint64, s: nat, member: Address, house: House) returns (failure: Option<Error>)
      requires Valid(now)
      modifies this
      ensures Valid(now)
      ensures Follows(old(Rule(now, CallRegisterMember(s, member, house))), failure, old(State()), State())
      ensures failure == None ==> memberHouse == old(memberHouse)[(s, member) := house]
    {
      hide LedgerOk, CountersOk, GovOk;
      if s !in sessions { return Some(InvalidSession); }
      if now >= sessions[s].startsAt { return Some(MembershipClosed); }
      if member == 0 { return Some(InvalidAddress); }
      if house == NoHouse { return Some(InvalidHouse); }
      if Read(memberHouse, (s, member), NoHouse) != NoHouse { return Some(MemberAlreadyRegistered); }
      MemberCounters(Ledger(), now, s, member, house, tallies, spentVoiceCredits);
      memberHouse := memberHouse[(s, member) := house];
      failure := None;
      Kept(old(State()), now, CallRegisterMember(s, member, house));
    }

    method RegisterProposal(now: uint64, t: Terms) returns (failure: Option<Error>, id: nat)
      requires Valid(now)
      modifies this
      ensures Valid(now)
      ensures Follows(old(Rule(now, CallRegisterProposal(t))), failure, old(State()), State())
      ensures failure == None ==> id == proposalCount == old(proposalCount) + 1
      ensures failure == None ==> terms == old(terms)[id := t] && cases == old(cases)[id := NEW_CASE]
    {
      hide LedgerOk, CountersOk, GovOk;
      id := 0;
      if t.sessionId !in sessions { return Some(InvalidSession), id; }
      if t.contentHash == 0 || t.specificationHash == 0 || t.manifestHash == 0 { return Some(InvalidHash), id; }
      if t.target == 0 { return Some(InvalidAddress), id; }
      if t.callDataHash == 0 { return Some(InvalidHash), id; }
      if t.changeClass == NoClass { return Some(InvalidConfiguration), id; }
      if t.votingStartsAt < sessions[t.sessionId].startsAt || t.votingStartsAt <= now
         || t.votingEndsAt <= t.votingStartsAt || t.votingEndsAt > sessions[t.sessionId].endsAt {
        return Some(InvalidTimeRange), id;
      }
      id := StoreProposal(now, t);
      failure := None;
      Kept(old(State()), now, CallRegisterProposal(t));
    }

    /** The next proposal number, with no votes and an empty case. */
    method StoreProposal(now: uint64, t: Terms) returns (id: nat)
      requires Stored() && GovernorRules.RegisterProposal(Ledger(), now, t).Ok?
      modifies this`proposalCount, this`terms, this`tallies, this`cases
      ensures Stored() && id == proposalCount == old(proposalCount) + 1
      ensures Ledger() == old(GovernorRules.RegisterProposal(Ledger(), now, t).value)
      ensures cases == old(cases)[id := NEW_CASE]
    {
      hide LedgerOk, CountersOk;
      ghost var l' := GovernorRules.RegisterProposal(Ledger(), now, t).value;
      ProposalCounters(Ledger(), l', now, t, tallies, spentVoiceCredits);
      proposalCount := proposalCount + 1;
      id := proposalCount;
      terms := terms[id := t];
      tallies := tallies[id := NO_VOTES];
      cases := cases[id := NEW_CASE];
      assert Ledger() == l';
    }

    method RegisterCfpProposal(now: uint64, cfp: Hash, revision: uint32, t: Terms)
      returns (failure: Option<Error>, id: nat)
      requires Valid(now)
      modifies this
      ensures Valid(now)
      ensures Follows(old(Rule(now, CallRegisterCfpProposal(cfp, revision, t))), failure,
                      old(State()), State())
      ensures failure == None ==> id == proposalCount == old(proposalCount) + 1
      ensures failure == None ==> terms == old(terms)[id := t] && cases == old(cases)[id := NEW_CASE]
      ensures failure == None ==>
        proposalCfp == old(proposalCfp)[id := (cfp, revision)] && cfpProposalId == old(cfpProposalId)[(cfp, revision) := id]
    {
      hide LedgerOk, CountersOk, GovOk, GovernorRules.RegisterProposal;
      id := 0;
      if cfp == 0 || revision == 0 { return Some(InvalidConfiguration), id; }
      if (cfp, revision) in cfpProposalId { return Some(CfpRevisionAlreadyRegistered), id; }
      failure, id := RegisterProposal(now, t);
      if failure == None {
        ghost var l := Ledger();
        proposalCfp := proposalCfp[id := (cfp, revision)];
        cfpProposalId := cfpProposalId[(cfp, revision) := id];
        assert Ledger() == l;
        Kept(old(State()), now, CallRegisterCfpProposal(cfp, revision, t));
      }
    }

    /** _castVote: incremental counters, no underflow, and overflow only where the vote is rejected. */
    method CastVote(now: uint64, p: nat, intensity: int8, member: Address) returns (failure: Option<Error>)
      requires Valid(now)
      modifies this
      ensures Valid(now)
      ensures Follows(old(GovernorRules.CastVote(State(), now, p, intensity, member)), failure, old(State()), State())
      ensures failure == None ==> (p, member) in ballots && ballots[(p, member)].intensity == intensity
      ensures votingNonces == old(votingNonces)
    {
      hide LedgerOk, CountersOk, GovOk;
      if p !in terms { return Some(InvalidProposal); }
      var c := cases[p];
      if c.finalized || c.cancelled || c.executed { return Some(FinalState); }
      if now < terms[p].votingStartsAt || now >= terms[p].votingEndsAt { return Some(VotingClosed); }
      if c.preVote.None? { return Some(PreVoteReviewMissing); }
      if !c.preVote.value.passed { return Some(PreVoteReviewFailed); }
      if c.creatorDeliberation == 0 || c.userDeliberation == 0 { return Some(DeliberationEvidenceMissing); }
      if intensity < -9 || intensity > 9 { return Some(InvalidIntensity); }
      var s := terms[p].sessionId;
      var house := Read(memberHouse, (s, member), NoHouse);
      if house == NoHouse { return Some(InvalidHouse); }
      failure := CountBallot(p, s, house, intensity, member);
      if failure == None { Kept(old(State()), now, CallCastVote(p, intensity, member)); }
    }

    /** The counting half of _castVote. */
    method CountBallot(p: nat, s: nat, house: House, intensity: int8, member: Address)
      returns (failure: Option<Error>)
      requires Stored() && p in terms && s == terms[p].sessionId && -9 <= intensity <= 9
      requires house == HouseOf(memberHouse, s, member) && house != NoHouse
      modifies this`tallies, this`ballots, this`spentVoiceCredits
      ensures Stored()
      ensures Follows(OnLedger(old(State()), CastBallot(old(Ledger()), p, intensity, member)), failure,
                      old(State()), State())
    {
      hide LedgerOk, TalliesOk, SpentOk, TallyOk, Spent, Voters;
      ghost var l := Ledger();
      TalliesKnown(l, tallies, spentVoiceCredits, p);
      CounterBounds(l, p, member, tallies[p]);
      var cast := (p, member) in ballots;
      var ballot := Read(ballots, (p, member), Ballot(0, 0));
      var nextCost := QuadraticCost(intensity);
      var currentSpent := Read(spentVoiceCredits, (s, member), 0);
      SpentKnown(l, spentVoiceCredits, s, member);
      var kept := currentSpent - ballot.cost;
      if kept as int + nextCost as int >= 0x1_0000_0000 { return Some(ArithmeticPanic); }
      var nextSpent := kept + nextCost;
      if nextSpent > sessions[s].budget { return Some(VoiceCreditExceeded); }

      var full, tally := Count(tallies[p], house, cast, ballot.intensity, intensity);
      if full { return Some(ArithmeticPanic); }

      StoreBallot(p, s, member, Ballot(intensity, nextCost), tally, nextSpent);
      failure := None;
    }

    /** The three mapping updates of a counted ballot. */
    method StoreBallot(p: nat, s: nat, member: Address, b: Ballot, tally: Tally, nextSpent: uint32)
      requires Stored() && p in terms && s == terms[p].sessionId && p in tallies
      requires CastBallot(Ledger(), p, b.intensity, member) == Ok(Ledger().(ballots := ballots[(p, member) := b]))
      requires Moved(tallies[p], tally, HouseOf(memberHouse, s, member), b.intensity as int - IntensityOf(ballots, p, member),
                     if (p, member) in ballots then 0 else 1)
      requires nextSpent as int == Spent(Ledger(), s, member) - CostOf(ballots, p, member) + b.cost as int
      modifies this`tallies, this`ballots, this`spentVoiceCredits
      ensures Stored() && State() == old(State()).(ledger := old(Ledger()).(ballots := old(ballots)[(p, member) := b]))
    {
      hide LedgerOk, TalliesOk, SpentOk, TallyOk, Spent, Voters, CastBallot, Moved;
      CountedVote(Ledger(), Ledger().(ballots := ballots[(p, member) := b]), p, b.intensity, member, b, tallies, tally,
                  spentVoiceCredits, nextSpent);
      ballots := ballots[(p, member) := b];
      tallies := tallies[p := tally];
      spentVoiceCredits := spentVoiceCredits[(s, member) := nextSpent];
    }

    method CastCfpApprovalVote(now: uint64, p: nat, intensity: int8, member: Address) returns (failure: Option<Error>)
      requires Valid(now)
      modifies this
      ensures Valid(now)
      ensures Follows(GovernorRules.CastCfpApprovalVote(old(State()), now, p, intensity, member), failure,
                      old(State()), State())
      ensures failure == None ==> (p, member) in ballots && ballots[(p, member)].intensity == intensity
      ensures votingNonces == old(votingNonces)
    {
      hide LedgerOk, CountersOk, GovOk;
      if p !in proposalCfp { return Some(CfpBindingMissing); }
      failure := CastVote(now, p, intensity, member);
    }

    method CastCfpApprovalVoteBySig(now: uint64, p: nat, s: nat, house: House, member: Address, intensity: int8,
                                    nonce: nat, deadline: nat, signer: Address) returns (failure: Option<Error>)
      requires Valid(now)
      modifies this
      ensures Valid(now)
      ensures Follows(CastVoteBySig(old(State()), now, p, s, house, member, intensity, nonce, deadline, signer), failure,
                      old(State()), State())
      ensures failure == None ==>
        signer == member && (p, member) in ballots && ballots[(p, member)].intensity == intensity
        && votingNonces == old(votingNonces)[member := nonce + 1]
    {
      hide LedgerOk, CountersOk, GovOk, GovernorRules.CastCfpApprovalVote;
      if now as nat > deadline { return Some(SignatureExpired); }
      if nonce != Read(votingNonces, member, 0) { return Some(InvalidVotingNonce); }
      if p !in terms { return Some(InvalidProposal); }
      if terms[p].sessionId != s || Read(memberHouse, (s, member), NoHouse) != house {
        return Some(InvalidBallotContext);
      }
      if signer != member { return Some(InvalidBallotSigner); }
      failure := SpendNonceAndVote(now, p, intensity, member, nonce + 1);
    }

    /** The nonce is spent before the vote is tried; a revert gives it back. */
    method SpendNonceAndVote(now: uint64, p: nat, intensity: int8, member: Address, next: nat)
      returns (failure: Option<Error>)
      requires Valid(now)
      modifies this
      ensures Valid(now)
      ensures Follows(GovernorRules.CastCfpApprovalVote(old(State()).(nonces := old(votingNonces)[member := next]), now, p,
                                                        intensity, member), failure, old(State()), State())
      ensures failure == None ==> (p, member) in ballots && ballots[(p, member)].intensity == intensity
      ensures failure == None ==> votingNonces == old(votingNonces)[member := next]
    {
      hide LedgerOk, CountersOk, GovOk, GovernorRules.CastCfpApprovalVote;
      var before := votingNonces;
      votingNonces := votingNonces[member := next];
      ghost var spentNonce := State();
      GuardsDoNotMatter(cfg, old(State()), votingNonces, entered, now);
      assert Ledger() == old(Ledger());
      failure := CastCfpApprovalVote(now, p, intensity, member);
      if failure != None {
        assert State() == spentNonce;
        votingNonces := before;
        assert State() == old(State()) && Ledger() == old(Ledger());
      }
    }

    method RecordPreVoteReview(now: uint64, p: nat, review: PreVoteReview) returns (failure: Option<Error>)
      requires Valid(now)
      modifies this`cases
      ensures Valid(now)
      ensures Follows(old(Rule(now, CallPreVoteReview(p, review))), failure, old(State()), State())
      ensures failure == None ==> p in old(cases) && cases == old(cases)[p := old(cases)[p].(preVote := Some(review))]
    {
      hide LedgerOk, CountersOk, GovOk;
      if p !in terms { return Some(InvalidProposal); }
      var c := cases[p];
      if now >= terms[p].votingStartsAt { return Some(VotingClosed); }
      if review.charterHash == 0 || review.legalHash == 0 || review.assessmentHash == 0 { return Some(InvalidHash); }
      if c.preVote.Some? { return Some(PreVoteReviewAlreadyRecorded); }
      cases := cases[p := c.(preVote := Some(review))];
      failure := None;
      Kept(old(State()), now, CallPreVoteReview(p, review));
    }

    method RecordHouseDeliberation(now: uint64, p: nat, house: House, evidence: Hash) returns (failure: Option<Error>)
      requires Valid(now)
      modifies this`cases
      ensures Valid(now)
      ensures Follows(old(Rule(now, CallDeliberation(p, house, evidence))), failure, old(State()), State())
      ensures failure == None && house == CreatorHouse ==>
        p in old(cases) && cases == old(cases)[p := old(cases)[p].(creatorDeliberation := evidence)]
      ensures failure == None && house == UserHouse ==>
        p in old(cases) && cases == old(cases)[p := old(cases)[p].(userDeliberation := evidence)]
    {
      hide LedgerOk, CountersOk, GovOk;
      if p !in terms { return Some(InvalidProposal); }
      var c := cases[p];
      if now >= terms[p].votingStartsAt { return Some(VotingClosed); }
      if c.preVote.None? { return Some(PreVoteReviewMissing); }
      if !c.preVote.value.passed { return Some(PreVoteReviewFailed); }
      if house == NoHouse { return Some(InvalidHouse); }
      if evidence == 0 { return Some(InvalidHash); }
      if house == CreatorHouse {
        if c.creatorDeliberation != 0 { return Some(DeliberationAlreadyRecorded); }
        cases := cases[p := c.(creatorDeliberation := evidence)];
      } else {
        if c.userDeliberation != 0 { return Some(DeliberationAlreadyRecorded); }
        cases := cases[p := c.(userDeliberation := evidence)];
      }
      failure := None;
      Kept(old(State()), now, CallDeliberation(p, house, evidence));
    }

    method FinalizeProposal(now: uint64, p: nat) returns (failure: Option<Error>)
      requires Valid(now)
      modifies this`cases
      ensures Valid(now)
      ensures Follows(old(Rule(now, CallFinalize(p))), failure, old(State()), State())
      ensures failure == None ==>
        && p in old(cases) && p in terms && terms[p].sessionId in sessions
        && var session := sessions[terms[p].sessionId];
           cases == old(cases)[p := old(cases)[p].(
             finalized := true,
             creatorApproved := Carries(Ledger(), p, Voters(Ledger(), p, CreatorHouse), session.creatorQuorum),
             userApproved := Carries(Ledger(), p, Voters(Ledger(), p, UserHouse), session.userQuorum))]
    {
      hide LedgerOk, CountersOk, GovOk, HouseApproves;
      if p !in terms { return Some(InvalidProposal); }
      var c := cases[p];
      if c.finalized || c.cancelled || c.executed { return Some(FinalState); }
      if now < terms[p].votingEndsAt { return Some(FinalizationUnavailable); }
      var creator, user := Approvals(p);
      cases := cases[p := c.(creatorApproved := creator, userApproved := user, finalized := true)];
      failure := None;
      Kept(old(State()), now, CallFinalize(p));
    }

    /** Quorum and sign of the stored tallies decide as a recount would. */
    method Approvals(p: nat) returns (creator: bool, user: bool)
      requires Stored() && p in terms
      ensures creator <==> HouseApproves(Ledger(), p, CreatorHouse)
      ensures user <==> HouseApproves(Ledger(), p, UserHouse)
      ensures var (l, session) := (Ledger(), sessions[terms[p].sessionId]);
              && (creator <==> Carries(l, p, Voters(l, p, CreatorHouse), session.creatorQuorum))
              && (user <==> Carries(l, p, Voters(l, p, UserHouse), session.userQuorum))
    {
      hide LedgerOk, CountersOk, TallyOk, Voters;
      TalliesKnown(Ledger(), tallies, spentVoiceCredits, p);
      var session, tally := sessions[terms[p].sessionId], tallies[p];
      creator := tally.creatorParticipants >= session.creatorQuorum && tally.creatorScore > 0;
      user := tally.userParticipants >= session.userQuorum && tally.userScore > 0;
    }

    method RecordContractTestEvidence(now: uint64, p: nat, test: TestEvidence) returns (failure: Option<Error>)
      requires Valid(now)
      modifies this`cases
      ensures Valid(now)
      ensures Follows(old(Rule(now, CallTestEvidence(p, test))), failure, old(State()), State())
      ensures failure == None ==> p in old(cases) && cases == old(cases)[p := old(cases)[p].(test := Some(test))]
    {
      hide LedgerOk, CountersOk, GovOk;
      if p !in terms { return Some(InvalidProposal); }
      var c := cases[p];
      if !c.finalized || !c.creatorApproved || !c.userApproved { return Some(BicameralApprovalMissing); }
      if c.cancelled || c.executed || c.queued || c.reviewed { return Some(FinalState); }
      if test.sourceHash == 0 || test.artifactHash == 0 || test.suiteHash == 0 || test.reportHash == 0
         || test.testedCallDataHash == 0 { return Some(InvalidHash); }
      if test.testedCallDataHash != terms[p].callDataHash { return Some(ManifestMismatch); }
      if c.test.Some? { return Some(ContractTestEvidenceAlreadyRecorded); }
      cases := cases[p := c.(test := Some(test))];
      failure := None;
      Kept(old(State()), now, CallTestEvidence(p, test));
    }

    method RecordConstitutionalEvidence(now: uint64, p: nat, evidence: Hash) returns (failure: Option<Error>)
      requires Valid(now)
      modifies this`cases
      ensures Valid(now)
      ensures Follows(old(Rule(now, CallConstitutional(p, evidence))), failure, old(State()), State())
      ensures failure == None ==> p in old(cases) && cases == old(cases)[p := old(cases)[p].(constitutional := evidence)]
    {
      hide LedgerOk, CountersOk, GovOk;
      if p !in terms { return Some(InvalidProposal); }
      var c := cases[p];
      if !c.finalized || !c.creatorApproved || !c.userApproved { return Some(BicameralApprovalMissing); }
      if terms[p].changeClass != Constitutional { return Some(InvalidConfiguration); }
      if c.reviewed || c.queued || c.cancelled || c.executed { return Some(FinalState); }
      if evidence == 0 { return Some(InvalidHash); }
      cases := cases[p := c.(constitutional := evidence)];
      failure := None;
      Kept(old(State()), now, CallConstitutional(p, evidence));
    }

    method RecordReview(now: uint64, p: nat, evidence: Hash) returns (failure: Option<Error>)
      requires Valid(now)
      modifies this`cases
      ensures Valid(now)
      ensures Follows(old(Rule(now, CallReview(p, evidence))), failure, old(State()), State())
      ensures failure == None ==> p in old(cases) && cases == old(cases)[p := old(cases)[p].(review := evidence, reviewed := true)]
    {
      hide LedgerOk, CountersOk, GovOk;
      if p !in terms { return Some(InvalidProposal); }
      var c := cases[p];
      if !c.finalized || !c.creatorApproved || !c.userApproved { return Some(BicameralApprovalMissing); }
      if c.cancelled || c.executed || c.queued { return Some(FinalState); }
      if evidence == 0 { return Some(InvalidHash); }
      if c.test.None? { return Some(ContractTestEvidenceMissing); }
      if !c.test.value.passed { return Some(ContractTestFailed); }
      if terms[p].changeClass == Constitutional && c.constitutional == 0 { return Some(ConstitutionalEvidenceMissing); }
      cases := cases[p := c.(review := evidence, reviewed := true)];
      failure := None;
      Kept(old(State()), now, CallReview(p, evidence));
    }

    method QueueProposal(now: uint64, p: nat) returns (failure: Option<Error>)
      requires Valid(now)
      modifies this`cases
      ensures Valid(now)
      ensures Follows(old(Rule(now, CallQueue(p))), failure, old(State()), State())
      ensures failure == None ==>
        && p in old(cases) && p in cases && p in terms && cases[p].queued && cases[p].queuedAt == now
        && cases[p].expiresAt as int == cases[p].executableAt as int + cfg.window as int
    {
      hide LedgerOk, CountersOk, GovOk;
      if p !in terms { return Some(InvalidProposal); }
      var c := cases[p];
      if !c.finalized || !c.creatorApproved || !c.userApproved { return Some(BicameralApprovalMissing); }
      if !c.reviewed { return Some(ReviewMissing); }
      if c.queued || c.cancelled || c.executed { return Some(FinalState); }
      if terms[p].changeClass == NoClass { return Some(InvalidConfiguration); }
      var delay := DelayFor(cfg, terms[p].changeClass);
      if now as int + delay as int + cfg.window as int >= 0x1_0000_0000_0000_0000 { return Some(ArithmeticPanic); }
      var executableAt := now + delay;
      cases := cases[p := c.(executableAt := executableAt, expiresAt := executableAt + cfg.window,
                             queued := true, queuedAt := now)];
      failure := None;
      Kept(old(State()), now, CallQueue(p));
    }

    /** executeProposal up to its external call; the target may call back in before EndExecution. */
    method BeginExecution(now: uint64, p: nat, chainId: nat, value: nat, callDataHash: Hash) returns (failure: Option<Error>)
      requires Valid(now)
      modifies this`cases, this`entered
      ensures Valid(now)
      ensures Follows(old(Rule(now, CallBeginExecution(p, chainId, value, callDataHash))), failure, old(State()), State())
      ensures failure == None ==>
        && p in old(cases) && p in terms && entered
        && cases == old(cases)[p := old(cases)[p].(
             executed := true,
             runs := old(cases)[p].runs + [Execution(terms[p].target, terms[p].value, terms[p].callDataHash, cfg.chainId, now)])]
    {
      hide LedgerOk, CountersOk, GovOk;
      if entered { return Some(ReentrantCall); }
      if p !in terms { return Some(InvalidProposal); }
      var c := cases[p];
      if chainId != cfg.chainId { return Some(WrongChain); }
      if !c.queued { return Some(ProposalNotQueued); }
      if c.cancelled || c.executed { return Some(FinalState); }
      if now < c.executableAt { return Some(TimelockNotMature); }
      if now > c.expiresAt { return Some(ExecutionExpired); }
      if value != terms[p].value || callDataHash != terms[p].callDataHash { return Some(ManifestMismatch); }
      entered := true;
      cases := cases[p := c.(executed := true, runs := c.runs + [Execution(terms[p].target, terms[p].value, callDataHash,
                                                                           chainId, now)])];
      failure := None;
      Kept(old(State()), now, CallBeginExecution(p, chainId, value, callDataHash));
    }

    /** The external call returned successfully: the guard is released. A failed call rolls everything back. */
    method EndExecution(now: uint64)
      requires Valid(now)
      modifies this`entered
      ensures Valid(now) && State() == old(State()).(entered := false)
    {
      hide LedgerOk, CountersOk, GovOk;
      GuardsDoNotMatter(cfg, State(), votingNonces, false, now);
      entered := false;
    }

    method CancelQueuedProposal(now: uint64, p: nat, incident: Hash) returns (failure: Option<Error>)
      requires Valid(now)
      modifies this`cases
      ensures Valid(now)
      ensures Follows(old(Rule(now, CallCancel(p, incident))), failure, old(State()), State())
      ensures failure == None ==> p in old(cases) && cases == old(cases)[p := old(cases)[p].(cancelled := true)]
    {
      hide LedgerOk, CountersOk, GovOk;
      if p !in terms { return Some(InvalidProposal); }
      var c := cases[p];
      if !c.queued { return Some(ProposalNotQueued); }
      if c.cancelled || c.executed { return Some(FinalState); }
      if incident == 0 { return Some(InvalidHash); }
      cases := cases[p := c.(cancelled := true)];
      failure := None;
      Kept(old(State()), now, CallCancel(p, incident));
    }

    /** proposalState. */
    method ReportState(now: uint64, p: nat) returns (r: Result<ProposalState, Error>)
      requires Valid(now)
      ensures r == if p in terms then Ok(StateOf(terms[p], cases[p], now)) else Revert(InvalidProposal)
    {
      hide LedgerOk, CountersOk, GovOk;
      if p !in terms { return Revert(InvalidProposal); }
      var c := cases[p];
      if c.executed { return Ok(EXECUTED); }
      if c.cancelled { return Ok(CANCELLED); }
      if c.queued && now > c.expiresAt { return Ok(EXPIRED); }
      if c.queued { return Ok(TIMELOCKED); }
      if c.reviewed { return Ok(REVIEWED); }
      if c.finalized && c.creatorApproved && c.userApproved { return Ok(JOINT_APPROVED); }
      if c.finalized { return Ok(REJECTED); }
      if now >= terms[p].votingEndsAt { return Ok(AWAITING_FINALIZATION); }
      if now >= terms[p].votingStartsAt { return Ok(VOTING); }
      r := Ok(PENDING);
    }

    /** remainingVoiceCredits never underflows. */
    method RemainingVoiceCredits(s: nat, member: Address) returns (r: Result<uint32, Error>)
      requires Stored()
      ensures s !in sessions ==> r == Revert(InvalidSession)
      ensures s in sessions ==> r.Ok? && r.value as int == sessions[s].budget as int - Spent(Ledger(), s, member)
    {
      if s !in sessions { return Revert(InvalidSession); }
      SpentKnown(Ledger(), spentVoiceCredits, s, member);
      assert Spent(Ledger(), s, member) <= sessions[s].budget as int;
      r := Ok(sessions[s].budget - Read(spentVoiceCredits, (s, member), 0));
    }
  }

  lemma TalliesKnown(l: Ledger, tallies: map<nat, Tally>, spent: map<(nat, Address), uint32>, p: nat)
    requires CountersOk(l, tallies, spent) && p in l.terms
    ensures p in tallies && TallyOk(l, p, tallies[p])
    ensures tallies[p].creatorParticipants as int == |Voters(l, p, CreatorHouse)|
    ensures tallies[p].userParticipants as int == |Voters(l, p, UserHouse)|
    ensures tallies[p].creatorScore as int == Score(l, p, CreatorHouse)
    ensures tallies[p].userScore as int == Score(l, p, UserHouse)
  {
  }

  lemma SpentKnown(l: Ledger, spent: map<(nat, Address), uint32>, s: nat, m: Address)
    requires SpentOk(l, spent) && s in l.sessions
    ensures Read(spent, (s, m), 0) as int == Spent(l, s, m)
  {
  }
}
