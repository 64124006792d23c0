/**
 What CreatorFirstBicameralGovernor promises, stated on ballots alone. Scores, participant
 counts and spent credits are recounted from the ballots here; the contract's incremental
 counters are proved to agree with these recounts in module Governor.
 */
module GovernorRules {
  import opened Common
  import opened FiniteSums

  datatype House = NoHouse | CreatorHouse | UserHouse
  datatype ChangeClass = NoClass | Parameter | Upgrade | Constitutional

  /** The constructor's immutable choices. */
  datatype Config = Config(chainId: nat, p1Delay: uint64, p2Delay: uint64, p3Delay: uint64, window: uint64)

  datatype Session = Session(ruleHash: Hash, startsAt: uint64, endsAt: uint64,
                             budget: uint32, creatorQuorum: uint32, userQuorum: uint32)

  /** The part of a proposal that is fixed at registration. */
  datatype Terms = Terms(sessionId: nat, contentHash: Hash, specificationHash: Hash, manifestHash: Hash,
                         callDataHash: Hash, target: Address, value: nat,
                         votingStartsAt: uint64, votingEndsAt: uint64, changeClass: ChangeClass)

  /** A cast ballot; a member who has not voted has none. */
  datatype Ballot = Ballot(intensity: int8, cost: uint32)

  datatype PreVoteReview = PreVoteReview(charterHash: Hash, legalHash: Hash, assessmentHash: Hash, passed: bool)
  datatype TestEvidence = TestEvidence(sourceHash: Hash, artifactHash: Hash, suiteHash: Hash, reportHash: Hash,
                                       testedCallDataHash: Hash, passed: bool)

  /** One external call made by executeProposal. */
  datatype Execution = Execution(target: Address, value: nat, callDataHash: Hash, chainId: nat, at: uint64)

  /** The part of a proposal that moves through the lifecycle. queuedAt and runs are history. */
  datatype Case = Case(
    preVote: Option<PreVoteReview>, creatorDeliberation: Hash, userDeliberation: Hash,
    finalized: bool, creatorApproved: bool, userApproved: bool,
    test: Option<TestEvidence>, constitutional: Hash, review: Hash, reviewed: bool,
    queued: bool, queuedAt: uint64, executableAt: uint64, expiresAt: uint64,
    executed: bool, cancelled: bool, runs: seq<Execution>)

  const NEW_CASE := Case(None, 0, 0, false, false, false, None, 0, 0, false, false, 0, 0, 0, false, false, [])

  /** Who may vote on what, and every ballot. */
  datatype Ledger = Ledger(sessionCount: nat, sessions: map<nat, Session>, houses: map<(nat, Address), House>,
                           proposalCount: nat, terms: map<nat, Terms>, ballots: map<(nat, Address), Ballot>)

  /** Contract state without its counters. */
  datatype Gov = Gov(ledger: Ledger, cases: map<nat, Case>, cfpOf: map<nat, (Hash, uint32)>,
                     cfpProposal: map<(Hash, uint32), nat>, nonces: map<Address, nat>, entered: bool)

  const DEPLOYED := Gov(Ledger(0, map[], map[], 0, map[], map[]), map[], map[], map[], map[], false)

  datatype Error =
    | InvalidAddress | InvalidConfiguration | InvalidHash | InvalidTimeRange | InvalidSession | InvalidProposal
    | InvalidHouse | MemberAlreadyRegistered | MembershipClosed | VotingClosed | InvalidIntensity
    | VoiceCreditExceeded | FinalizationUnavailable | BicameralApprovalMissing | ReviewMissing
    | ConstitutionalEvidenceMissing | ProposalNotQueued | TimelockNotMature | ExecutionExpired | ManifestMismatch
    | WrongChain | FinalState | PreVoteReviewMissing | PreVoteReviewFailed | PreVoteReviewAlreadyRecorded
    | DeliberationEvidenceMissing | DeliberationAlreadyRecorded | ContractTestEvidenceMissing | ContractTestFailed
    | ContractTestEvidenceAlreadyRecorded | CfpBindingMissing | CfpRevisionAlreadyRegistered | SignatureExpired
    | InvalidVotingNonce | InvalidBallotContext | InvalidBallotSigner | ReentrantCall | ArithmeticPanic

  // Recounts

  function IntensityOf(ballots: map<(nat, Address), Ballot>, p: nat, m: Address): int {
    if (p, m) in ballots then ballots[(p, m)].intensity as int else 0
  }

  function CostOf(ballots: map<(nat, Address), Ballot>, p: nat, m: Address): int {
    if (p, m) in ballots then ballots[(p, m)].cost as int else 0
  }

  function IntensitiesOn(ballots: map<(nat, Address), Ballot>, p: nat): Address -> int {
    (m: Address) => IntensityOf(ballots, p, m)
  }

  function CostsOn(ballots: map<(nat, Address), Ballot>, p: nat): Address -> int {
    (m: Address) => CostOf(ballots, p, m)
  }

  function CostsBy(ballots: map<(nat, Address), Ballot>, m: Address): nat -> int {
    (p: nat) => CostOf(ballots, p, m)
  }

  function HouseOf(houses: map<(nat, Address), House>, s: nat, m: Address): House {
    Read(houses, (s, m), NoHouse)
  }

  /** Members of House h who have a ballot on proposal p of session s. */
  function VotersOn(ballots: map<(nat, Address), Ballot>, houses: map<(nat, Address), House>,
                    s: nat, p: nat, h: House): set<Address> {
    set k | k in ballots && k.0 == p && HouseOf(houses, s, k.1) == h :: k.1
  }

  ghost function ScoreOn(ballots: map<(nat, Address), Ballot>, voters: set<Address>, p: nat): int {
    Sum(voters, IntensitiesOn(ballots, p))
  }

  function ProposalsOf(terms: map<nat, Terms>, s: nat): set<nat> {
    set p | p in terms && terms[p].sessionId == s
  }

  ghost function SpentOn(ballots: map<(nat, Address), Ballot>, proposals: set<nat>, m: Address): int {
    Sum(proposals, CostsBy(ballots, m))
  }

  function Voters(l: Ledger, p: nat, h: House): set<Address>
    requires p in l.terms
  {
    VotersOn(l.ballots, l.houses, l.terms[p].sessionId, p, h)
  }

  /** The from-scratch score of one House on one proposal. */
  ghost function Score(l: Ledger, p: nat, h: House): int
    requires p in l.terms
  {
    ScoreOn(l.ballots, Voters(l, p, h), p)
  }

  /** The from-scratch voice credits a member has spent over all proposals of a session. */
  ghost function Spent(l: Ledger, s: nat, m: Address): int {
    SpentOn(l.ballots, ProposalsOf(l.terms, s), m)
  }

  // Operations

  function CreateSession(l: Ledger, now: uint64, session: Session): Result<Ledger, Error> {
    if session.ruleHash == 0 then Revert(InvalidHash)
    else if session.startsAt <= now || session.endsAt <= session.startsAt then Revert(InvalidTimeRange)
    else if session.budget == 0 || session.creatorQuorum == 0 || session.userQuorum == 0 then
      Revert(InvalidConfiguration)
    else
      var id := l.sessionCount + 1;
      Ok(l.(sessionCount := id, sessions := l.sessions[id := session]))
  }

  function RegisterMember(l: Ledger, now: uint64, s: nat, member: Address, house: House): Result<Ledger, Error> {
    if s !in l.sessions then Revert(InvalidSession)
    else if now >= l.sessions[s].startsAt then Revert(MembershipClosed)
    else if member == 0 then Revert(InvalidAddress)
    else if house == NoHouse then Revert(InvalidHouse)
    else if HouseOf(l.houses, s, member) != NoHouse then Revert(MemberAlreadyRegistered)
    else Ok(l.(houses := l.houses[(s, member) := house]))
  }

  function RegisterProposal(l: Ledger, now: uint64, terms: Terms): Result<Ledger, Error> {
    if terms.sessionId !in l.sessions then Revert(InvalidSession)
    else if terms.contentHash == 0 || terms.specificationHash == 0 || terms.manifestHash == 0 then Revert(InvalidHash)
    else if terms.target == 0 then Revert(InvalidAddress)
    else if terms.callDataHash == 0 then Revert(InvalidHash)
    else if terms.changeClass == NoClass then Revert(InvalidConfiguration)
    else if terms.votingStartsAt < l.sessions[terms.sessionId].startsAt || terms.votingStartsAt <= now
            || terms.votingEndsAt <= terms.votingStartsAt || terms.votingEndsAt > l.sessions[terms.sessionId].endsAt
    then Revert(InvalidTimeRange)
    else
      var id := l.proposalCount + 1;
      Ok(l.(proposalCount := id, terms := l.terms[id := terms]))
  }

  function RegisterWithCfp(g: Gov, now: uint64, cfp: Hash, revision: uint32, terms: Terms): Result<Gov, Error> {
    if cfp == 0 || revision == 0 then Revert(InvalidConfiguration)
    else if (cfp, revision) in g.cfpProposal then Revert(CfpRevisionAlreadyRegistered)
    else
      match RegisterProposal(g.ledger, now, terms)
      case Revert(e) => Revert(e)
      case Ok(l) =>
        var id := l.proposalCount;
        Ok(g.(ledger := l, cases := g.cases[id := NEW_CASE], cfpOf := g.cfpOf[id := (cfp, revision)],
              cfpProposal := g.cfpProposal[(cfp, revision) := id]))
  }

  predicate Closed(c: Case) { c.finalized || c.cancelled || c.executed }

  predicate JointlyApproved(c: Case) { c.finalized && c.creatorApproved && c.userApproved }

  /** Why a proposal does not take ballots now, if it does not. */
  function VotingBar(t: Terms, c: Case, now: uint64): Option<Error> {
    if Closed(c) then Some(FinalState)
    else if now < t.votingStartsAt || now >= t.votingEndsAt then Some(VotingClosed)
    else if c.preVote.None? then Some(PreVoteReviewMissing)
    else if !c.preVote.value.passed then Some(PreVoteReviewFailed)
    else if c.creatorDeliberation == 0 || c.userDeliberation == 0 then Some(DeliberationEvidenceMissing)
    else None
  }

  /** A member's ballot replaces any earlier ballot of theirs on the same proposal. */
  ghost function CastBallot(l: Ledger, p: nat, intensity: int8, member: Address): Result<Ledger, Error>
    requires p in l.terms && l.terms[p].sessionId in l.sessions
  {
    var s := l.terms[p].sessionId;
    var house := HouseOf(l.houses, s, member);
    if intensity < -9 || intensity > 9 then Revert(InvalidIntensity)
    else if house == NoHouse then Revert(InvalidHouse)
    else
      var cost := intensity as int * intensity as int;
      var spent := Spent(l, s, member) - CostOf(l.ballots, p, member) + cost;
      if spent >= 0x1_0000_0000 then Revert(ArithmeticPanic)
      else if spent > l.sessions[s].budget as int then Revert(VoiceCreditExceeded)
      else if (p, member) !in l.ballots && |Voters(l, p, house)| >= 0xFFFF_FFFF then Revert(ArithmeticPanic)
      else Ok(l.(ballots := l.ballots[(p, member) := Ballot(intensity, cost as uint32)]))
  }

  function RecordPreVoteReview(t: Terms, c: Case, now: uint64, review: PreVoteReview): Result<Case, Error> {
    if now >= t.votingStartsAt then Revert(VotingClosed)
    else if review.charterHash == 0 || review.legalHash == 0 || review.assessmentHash == 0 then Revert(InvalidHash)
    else if c.preVote.Some? then Revert(PreVoteReviewAlreadyRecorded)
    else Ok(c.(preVote := Some(review)))
  }

  function RecordHouseDeliberation(t: Terms, c: Case, now: uint64, house: House, evidence: Hash): Result<Case, Error> {
    if now >= t.votingStartsAt then Revert(VotingClosed)
    else if c.preVote.None? then Revert(PreVoteReviewMissing)
    else if !c.preVote.value.passed then Revert(PreVoteReviewFailed)
    else if house == NoHouse then Revert(InvalidHouse)
    else if evidence == 0 then Revert(InvalidHash)
    else if (if house == CreatorHouse then c.creatorDeliberation else c.userDeliberation) != 0 then
      Revert(DeliberationAlreadyRecorded)
    else if house == CreatorHouse then Ok(c.(creatorDeliberation := evidence))
    else Ok(c.(userDeliberation := evidence))
  }

  /** A House approves when enough of its members voted and its recounted score is positive. */
  ghost predicate HouseApproves(l: Ledger, p: nat, h: House)
    requires p in l.terms && l.terms[p].sessionId in l.sessions
  {
    var session := l.sessions[l.terms[p].sessionId];
    var quorum := if h == CreatorHouse then session.creatorQuorum else session.userQuorum;
    |Voters(l, p, h)| >= quorum as int && Score(l, p, h) > 0
  }

  ghost function FinalizeProposal(l: Ledger, p: nat, c: Case, now: uint64): Result<Case, Error>
    requires p in l.terms && l.terms[p].sessionId in l.sessions
  {
    if Closed(c) then Revert(FinalState)
    else if now < l.terms[p].votingEndsAt then Revert(FinalizationUnavailable)
    else
      Ok(c.(creatorApproved := HouseApproves(l, p, CreatorHouse), userApproved := HouseApproves(l, p, UserHouse),
            finalized := true))
  }

  function RecordContractTestEvidence(t: Terms, c: Case, test: TestEvidence): Result<Case, Error> {
    if !JointlyApproved(c) then Revert(BicameralApprovalMissing)
    else if c.cancelled || c.executed || c.queued || c.reviewed then Revert(FinalState)
    else if test.sourceHash == 0 || test.artifactHash == 0 || test.suiteHash == 0
            || test.reportHash == 0 || test.testedCallDataHash == 0 then Revert(InvalidHash)
    else if test.testedCallDataHash != t.callDataHash then Revert(ManifestMismatch)
    else if c.test.Some? then Revert(ContractTestEvidenceAlreadyRecorded)
    else Ok(c.(test := Some(test)))
  }

  function RecordConstitutionalEvidence(t: Terms, c: Case, evidence: Hash): Result<Case, Error> {
    if !JointlyApproved(c) then Revert(BicameralApprovalMissing)
    else if t.changeClass != Constitutional then Revert(InvalidConfiguration)
    else if c.reviewed || c.queued || c.cancelled || c.executed then Revert(FinalState)
    else if evidence == 0 then Revert(InvalidHash)
    else Ok(c.(constitutional := evidence))
  }

  function RecordReview(t: Terms, c: Case, evidence: Hash): Result<Case, Error> {
    if !JointlyApproved(c) then Revert(BicameralApprovalMissing)
    else if c.cancelled || c.executed || c.queued then Revert(FinalState)
    else if evidence == 0 then Revert(InvalidHash)
    else if c.test.None? then Revert(ContractTestEvidenceMissing)
    else if !c.test.value.passed then Revert(ContractTestFailed)
    else if t.changeClass == Constitutional && c.constitutional == 0 then Revert(ConstitutionalEvidenceMissing)
    else Ok(c.(review := evidence, reviewed := true))
  }

  function DelayFor(cfg: Config, changeClass: ChangeClass): uint64 {
    match changeClass
    case NoClass => 0
    case Parameter => cfg.p1Delay
    case Upgrade => cfg.p2Delay
    case Constitutional => cfg.p3Delay
  }

  /** What the constructor accepts. */
  predicate Configured(cfg: Config) {
    cfg.chainId != 0 && cfg.p1Delay != 0 && cfg.p1Delay <= cfg.p2Delay <= cfg.p3Delay && cfg.window != 0
  }

  function QueueProposal(cfg: Config, t: Terms, c: Case, now: uint64): Result<Case, Error> {
    if !JointlyApproved(c) then Revert(BicameralApprovalMissing)
    else if !c.reviewed then Revert(ReviewMissing)
    else if c.queued || c.cancelled || c.executed then Revert(FinalState)
    else if t.changeClass == NoClass then Revert(InvalidConfiguration)
    else
      var executableAt := now as int + DelayFor(cfg, t.changeClass) as int;
      if executableAt + cfg.window as int >= 0x1_0000_0000_0000_0000 then Revert(ArithmeticPanic)
      else
        Ok(c.(executableAt := executableAt as uint64, expiresAt := (executableAt + cfg.window as int) as uint64,
              queued := true, queuedAt := now))
  }

  /** executeProposal up to and including its external call. */
  function BeginExecution(cfg: Config, t: Terms, c: Case, now: uint64, chainId: nat, value: nat,
                          callDataHash: Hash): Result<Case, Error> {
    if chainId != cfg.chainId then Revert(WrongChain)
    else if !c.queued then Revert(ProposalNotQueued)
    else if c.cancelled || c.executed then Revert(FinalState)
    else if now < c.executableAt then Revert(TimelockNotMature)
    else if now > c.expiresAt then Revert(ExecutionExpired)
    else if value != t.value || callDataHash != t.callDataHash then Revert(ManifestMismatch)
    else Ok(c.(executed := true, runs := c.runs + [Execution(t.target, t.value, callDataHash, chainId, now)]))
  }

  function CancelQueuedProposal(c: Case, incident: Hash): Result<Case, Error> {
    if !c.queued then Revert(ProposalNotQueued)
    else if c.cancelled || c.executed then Revert(FinalState)
    else if incident == 0 then Revert(InvalidHash)
    else Ok(c.(cancelled := true))
  }

  // The whole contract

  datatype Call =
    | CallCreateSession(session: Session)
    | CallRegisterMember(s: nat, member: Address, house: House)
    | CallRegisterProposal(terms: Terms)
    | CallRegisterCfpProposal(cfp: Hash, revision: uint32, terms: Terms)
    | CallCastVote(p: nat, intensity: int8, member: Address)
    | CallCastCfpApprovalVote(p: nat, intensity: int8, member: Address)
      // signer is the address recovered from the ballot signature
    | CallCastVoteBySig(p: nat, s: nat, house: House, member: Address, intensity: int8,
                        nonce: nat, deadline: nat, signer: Address)
    | CallPreVoteReview(p: nat, review: PreVoteReview)
    | CallDeliberation(p: nat, house: House, evidence: Hash)
    | CallFinalize(p: nat)
    | CallTestEvidence(p: nat, test: TestEvidence)
    | CallConstitutional(p: nat, evidence: Hash)
    | CallReview(p: nat, evidence: Hash)
    | CallQueue(p: nat)
    | CallBeginExecution(p: nat, chainId: nat, value: nat, callDataHash: Hash)
    | CallCancel(p: nat, incident: Hash)

  /** The calls that move one proposal along its lifecycle. */
  predicate IsCaseCall(call: Call) {
    call.CallPreVoteReview? || call.CallDeliberation? || call.CallFinalize? || call.CallTestEvidence?
    || call.CallConstitutional? || call.CallReview? || call.CallQueue? || call.CallBeginExecution? || call.CallCancel?
  }

  ghost function ApplyToCase(cfg: Config, l: Ledger, c: Case, now: uint64, call: Call): Result<Case, Error>
    requires IsCaseCall(call) && call.p in l.terms && l.terms[call.p].sessionId in l.sessions
  {
    var t := l.terms[call.p];
    match call
    case CallPreVoteReview(p, review) => RecordPreVoteReview(t, c, now, review)
    case CallDeliberation(p, house, evidence) => RecordHouseDeliberation(t, c, now, house, evidence)
    case CallFinalize(p) => FinalizeProposal(l, p, c, now)
    case CallTestEvidence(p, test) => RecordContractTestEvidence(t, c, test)
    case CallConstitutional(p, evidence) => RecordConstitutionalEvidence(t, c, evidence)
    case CallReview(p, evidence) => RecordReview(t, c, evidence)
    case CallQueue(p) => QueueProposal(cfg, t, c, now)
    case CallBeginExecution(p, chainId, value, callDataHash) =>
      BeginExecution(cfg, t, c, now, chainId, value, callDataHash)
    case CallCancel(p, incident) => CancelQueuedProposal(c, incident)
  }

  /** Proposals exist with a case and a session; every reachable state has this shape. */
  predicate Shaped(g: Gov) {
    && g.cases.Keys == g.ledger.terms.Keys
    && forall p :: p in g.ledger.terms ==> g.ledger.terms[p].sessionId in g.ledger.sessions
  }

  ghost function CastVote(g: Gov, now: uint64, p: nat, intensity: int8, member: Address): Result<Gov, Error>
    requires Shaped(g)
  {
    if p !in g.cases then Revert(InvalidProposal)
    else
      match VotingBar(g.ledger.terms[p], g.cases[p], now)
      case Some(e) => Revert(e)
      case None =>
        match CastBallot(g.ledger, p, intensity, member)
        case Revert(e) => Revert(e)
        case Ok(l) => Ok(g.(ledger := l))
  }

  ghost function CastCfpApprovalVote(g: Gov, now: uint64, p: nat, intensity: int8, member: Address): Result<Gov, Error>
    requires Shaped(g)
  {
    if p !in g.cfpOf then Revert(CfpBindingMissing) else CastVote(g, now, p, intensity, member)
  }

  ghost function CastVoteBySig(g: Gov, now: uint64, p: nat, s: nat, house: House, member: Address, intensity: int8,
                               nonce: nat, deadline: nat, signer: Address): Result<Gov, Error>
    requires Shaped(g)
  {
    if now as nat > deadline then Revert(SignatureExpired)
    else if nonce != Read(g.nonces, member, 0) then Revert(InvalidVotingNonce)
    else if p !in g.ledger.terms then Revert(InvalidProposal)
    else if g.ledger.terms[p].sessionId != s || HouseOf(g.ledger.houses, s, member) != house then
      Revert(InvalidBallotContext)
    else if signer != member then Revert(InvalidBallotSigner)
    else CastCfpApprovalVote(g.(nonces := g.nonces[member := nonce + 1]), now, p, intensity, member)
  }

  function OnLedger(g: Gov, r: Result<Ledger, Error>): Result<Gov, Error> {
    match r
    case Revert(e) => Revert(e)
    case Ok(l) => Ok(g.(ledger := l))
  }

  /** A call on one proposal's case; executeProposal is guarded against re-entering itself. */
  ghost function OnCase(cfg: Config, g: Gov, now: uint64, call: Call): Result<Gov, Error>
    requires Shaped(g) && IsCaseCall(call)
  {
    if call.CallBeginExecution? && g.entered then Revert(ReentrantCall)
    else if call.p !in g.cases then Revert(InvalidProposal)
    else
      match ApplyToCase(cfg, g.ledger, g.cases[call.p], now, call)
      case Revert(e) => Revert(e)
      case Ok(c) => Ok(g.(cases := g.cases[call.p := c], entered := g.entered || call.CallBeginExecution?))
  }

  /** Registrations and votes. */
  ghost function OnRegistry(g: Gov, now: uint64, call: Call): Result<Gov, Error>
    requires Shaped(g) && !IsCaseCall(call)
  {
    match call
    case CallCreateSession(session) => OnLedger(g, CreateSession(g.ledger, now, session))
    case CallRegisterMember(s, member, house) => OnLedger(g, RegisterMember(g.ledger, now, s, member, house))
    case CallRegisterProposal(terms) =>
      OnLedger(g.(cases := g.cases[g.ledger.proposalCount + 1 := NEW_CASE]), RegisterProposal(g.ledger, now, terms))
    case CallRegisterCfpProposal(cfp, revision, terms) => RegisterWithCfp(g, now, cfp, revision, terms)
    case CallCastVote(p, intensity, member) => CastVote(g, now, p, intensity, member)
    case CallCastCfpApprovalVote(p, intensity, member) => CastCfpApprovalVote(g, now, p, intensity, member)
    case CallCastVoteBySig(p, s, house, member, intensity, nonce, deadline, signer) =>
      CastVoteBySig(g, now, p, s, house, member, intensity, nonce, deadline, signer)
  }

  ghost function Apply(cfg: Config, g: Gov, now: uint64, call: Call): Result<Gov, Error>
    requires Shaped(g)
  {
    if IsCaseCall(call) then OnCase(cfg, g, now, call) else OnRegistry(g, now, call)
  }

  datatype ProposalState =
    PENDING | VOTING | AWAITING_FINALIZATION | REJECTED | JOINT_APPROVED | REVIEWED | TIMELOCKED
    | EXECUTED | CANCELLED | EXPIRED

  function StateOf(t: Terms, c: Case, now: uint64): ProposalState {
    if c.executed then EXECUTED
    else if c.cancelled then CANCELLED
    else if c.queued && now > c.expiresAt then EXPIRED
    else if c.queued then TIMELOCKED
    else if c.reviewed then REVIEWED
    else if JointlyApproved(c) then JOINT_APPROVED
    else if c.finalized then REJECTED
    else if now >= t.votingEndsAt then AWAITING_FINALIZATION
    else if now >= t.votingStartsAt then VOTING
    else PENDING
  }
}
