/**
 What CreatorFirstVerifiableSortition promises, stated on the textbook shuffle: each House keeps
 the positions drawn so far, and its ranked list is the selection they produce on a dense array.
 */
module SortitionRules {
  import opened Common
  import opened FisherYates
  import G = GovernorRules

  const CREATOR_HOUSE: uint8 := 1
  const USER_HOUSE: uint8 := 2

  datatype HouseKey = HouseKey(sessionId: nat, house: uint8)

  /** createdAt and fulfilledAt are history; word is 0 until randomness arrives. */
  datatype Round = Round(snapshotHash: Hash, requestId: Hash, closesAt: uint64, claimDeadline: uint64,
                         word: nat, fulfilled: bool, createdAt: uint64, fulfilledAt: uint64)

  datatype HouseConfig = HouseConfig(root: Hash, population: uint32, primarySeats: uint32, alternateSeats: uint32)

  /** An eligibility leaf; the double keccak over its parts is taken to be injective. */
  datatype Leaf = Leaf(index: uint32, identity: Hash, wallet: Address)

  /** A claimed seat. caller and at are history. */
  datatype Seat = Seat(leaf: Leaf, proof: seq<Hash>, caller: Address, at: uint64)

  /** The cryptography: keccak over (word, session, house, rank), and Merkle verification. */
  datatype Oracle = Oracle(draw: (nat, nat, uint8, nat) -> nat, proves: (seq<Hash>, Hash, Leaf) -> bool)

  datatype Sort = Sort(rounds: map<nat, Round>, configs: map<HouseKey, HouseConfig>, draws: map<HouseKey, seq<nat>>,
                       limits: map<HouseKey, uint32>, requests: map<Hash, nat>, seats: map<(HouseKey, uint32), Seat>)

  const DEPLOYED := Sort(map[], map[], map[], map[], map[], map[])

  datatype Error =
    | InvalidHouse | InvalidConfiguration | InvalidTimeRange | InvalidSession | RoundAlreadyExists
    | RandomnessRequestAlreadyUsed | EligibilityStillOpen | RandomnessAlreadyFulfilled | RandomnessMissing
    | AllSelectionsFinalized | SelectionMissing | RankNotActive | RankAlreadyClaimed | ClaimWindowClosed
    | InvalidEligibilityProof | GovernanceIdentityAlreadyUsed | VotingWalletMismatch | AlternateActivationUnavailable
    | InvalidEvidence | GovernorRejected(error: G.Error)

  predicate IsHouse(house: uint8) { house == CREATOR_HOUSE || house == USER_HOUSE }

  function GovernorHouse(house: uint8): G.House {
    if house == CREATOR_HOUSE then G.CreatorHouse else if house == USER_HOUSE then G.UserHouse else G.NoHouse
  }

  predicate Feasible(c: HouseConfig) {
    c.population != 0 && c.primarySeats != 0 && c.primarySeats as int + c.alternateSeats as int <= c.population as int
  }

  function Seats(c: HouseConfig): nat { c.primarySeats as nat + c.alternateSeats as nat }

  // The ranked list as a function of public inputs

  /** Position drawn at a rank: rank + keccak(...) mod the number of candidates left. */
  function DrawAt(o: Oracle, word: nat, k: HouseKey, n: nat, rank: nat): nat
    requires rank < n
  {
    rank + o.draw(word, k.sessionId, k.house, rank) % (n - rank)
  }

  function Draws(o: Oracle, word: nat, k: HouseKey, n: nat, count: nat): (draws: seq<nat>)
    requires count <= n
    ensures |draws| == count && ValidDraws(n, draws)
  {
    seq(count, r requires 0 <= r < count => DrawAt(o, word, k, n, r))
  }

  /** The ranked list of a House: nothing but randomness, session, house and population enter it. */
  function Ranking(o: Oracle, word: nat, k: HouseKey, n: nat, count: nat): (list: seq<nat>)
    requires count <= n
    ensures |list| == count
  {
    Selection(n, Draws(o, word, k, n, count))
  }

  lemma RankingPrefix(o: Oracle, word: nat, k: HouseKey, n: nat, some: nat, all: nat)
    requires some <= all <= n
    ensures Ranking(o, word, k, n, some) == Ranking(o, word, k, n, all)[..some]
  {
    SelectionPrefix(n, Draws(o, word, k, n, all), some);
    assert Draws(o, word, k, n, all)[..some] == Draws(o, word, k, n, some);
  }

  // Operations

  /** Both Houses start with nothing drawn and their primary ranks active. */
  function NewRound(s: Sort, now: uint64, id: nat, snapshotHash: Hash, requestId: Hash, closesAt: uint64,
                    claimDeadline: uint64, creator: HouseConfig, user: HouseConfig): Sort
  {
    var ck, uk := HouseKey(id, CREATOR_HOUSE), HouseKey(id, USER_HOUSE);
    s.(rounds := s.rounds[id := Round(snapshotHash, requestId, closesAt, claimDeadline, 0, false, now, 0)],
       configs := s.configs[ck := creator][uk := user],
       draws := s.draws[ck := []][uk := []],
       limits := s.limits[ck := creator.primarySeats][uk := user.primarySeats],
       requests := s.requests[requestId := id])
  }

  function CreateRound(s: Sort, l: G.Ledger, now: uint64, id: nat, snapshotHash: Hash, requestId: Hash,
                       closesAt: uint64, claimDeadline: uint64, creator: HouseConfig, user: HouseConfig)
    : Result<Sort, Error>
  {
    if id in s.rounds then Revert(RoundAlreadyExists)
    else if snapshotHash == 0 || requestId == 0 || creator.root == 0 || user.root == 0 then Revert(InvalidConfiguration)
    else if requestId in s.requests then Revert(RandomnessRequestAlreadyUsed)
    else if id !in l.sessions then Revert(InvalidSession)
    else if closesAt <= now || claimDeadline <= closesAt || claimDeadline >= l.sessions[id].startsAt then
      Revert(InvalidTimeRange)
    else if !Feasible(creator) || !Feasible(user) then Revert(InvalidConfiguration)
    else Ok(NewRound(s, now, id, snapshotHash, requestId, closesAt, claimDeadline, creator, user))
  }

  function FulfillRandomness(s: Sort, now: uint64, requestId: Hash, word: nat): Result<Sort, Error> {
    var id := Read(s.requests, requestId, 0);
    if id !in s.rounds || s.rounds[id].requestId != requestId then Revert(InvalidSession)
    else if now < s.rounds[id].closesAt then Revert(EligibilityStillOpen)
    else if now >= s.rounds[id].claimDeadline then Revert(ClaimWindowClosed)
    else if s.rounds[id].fulfilled then Revert(RandomnessAlreadyFulfilled)
    else if word == 0 then Revert(InvalidConfiguration)
    else Ok(s.(rounds := s.rounds[id := s.rounds[id].(word := word, fulfilled := true, fulfilledAt := now)]))
  }

  /** Both Houses of every round are configured feasibly and draw inside their population. */
  ghost predicate Shaped(s: Sort) {
    forall k :: k in s.configs <==> IsHouse(k.house) && k.sessionId in s.rounds
  }

  ghost predicate BooksShaped(s: Sort) {
    && s.draws.Keys == s.configs.Keys && s.limits.Keys == s.configs.Keys
    && forall k :: k in s.configs ==> BookShaped(s.configs[k], s.draws[k])
  }

  predicate BookShaped(c: HouseConfig, draws: seq<nat>) {
    Feasible(c) && |draws| <= Seats(c) && ValidDraws(c.population as nat, draws)
  }

  lemma EmptyBooks(creator: HouseConfig, user: HouseConfig)
    requires Feasible(creator) && Feasible(user)
    ensures BookShaped(creator, []) && BookShaped(user, [])
  {
  }

  lemma DrawStaysShaped(o: Oracle, s: Sort, k: HouseKey, word: nat)
    requires Shaped(s) && BooksShaped(s) && k in s.configs && |s.draws[k]| < Seats(s.configs[k])
    ensures |s.draws[k]| < s.configs[k].population as nat
    ensures BookShaped(s.configs[k], s.draws[k] + [DrawAt(o, word, k, s.configs[k].population as nat, |s.draws[k]|)])
  {
  }

  function FinalizeNextSelection(o: Oracle, s: Sort, id: nat, house: uint8): Result<Sort, Error>
    requires Shaped(s) && BooksShaped(s)
  {
    if !IsHouse(house) then Revert(InvalidHouse)
    else if id !in s.rounds then Revert(InvalidSession)
    else if !s.rounds[id].fulfilled then Revert(RandomnessMissing)
    else
      var k := HouseKey(id, house);
      var rank := |s.draws[k]|;
      if rank >= Seats(s.configs[k]) then Revert(AllSelectionsFinalized)
      else
        var position := DrawAt(o, s.rounds[id].word, k, s.configs[k].population as nat, rank);
        Ok(s.(draws := s.draws[k := s.draws[k] + [position]]))
  }

  function RankedList(s: Sort, k: HouseKey): (list: seq<nat>)
    requires k in s.configs && BooksShaped(s)
    ensures |list| == |s.draws[k]|
  {
    Selection(s.configs[k].population as nat, s.draws[k])
  }

  predicate IdentityUsed(s: Sort, id: nat, identity: Hash) {
    exists k :: k in s.seats && k.0.sessionId == id && s.seats[k].leaf.identity == identity
  }

  /** Both contracts change together or not at all. */
  function ClaimSeat(o: Oracle, s: Sort, l: G.Ledger, now: uint64, sender: Address, id: nat, house: uint8, rank: uint32,
                     identity: Hash, wallet: Address, proof: seq<Hash>): Result<(Sort, G.Ledger), Error>
    requires Shaped(s) && BooksShaped(s)
  {
    if !IsHouse(house) then Revert(InvalidHouse)
    else if id !in s.rounds then Revert(InvalidSession)
    else if sender != wallet then Revert(VotingWalletMismatch)
    else if identity == 0 || wallet == 0 then Revert(InvalidConfiguration)
    else if id !in l.sessions || now >= l.sessions[id].startsAt then Revert(ClaimWindowClosed)
    else
      var k := HouseKey(id, house);
      if rank < s.configs[k].primarySeats && now > s.rounds[id].claimDeadline then Revert(ClaimWindowClosed)
      else if rank >= s.limits[k] then Revert(RankNotActive)
      else if rank as nat >= |s.draws[k]| then Revert(SelectionMissing)
      else if (k, rank) in s.seats then Revert(RankAlreadyClaimed)
      else if IdentityUsed(s, id, identity) then Revert(GovernanceIdentityAlreadyUsed)
      else
        PositionInverts(s.configs[k].population as nat, s.draws[k]);
        var leaf := Leaf(RankedList(s, k)[rank] as uint32, identity, wallet);
        if !o.proves(proof, s.configs[k].root, leaf) then Revert(InvalidEligibilityProof)
        else
          match G.RegisterMember(l, now, id, wallet, GovernorHouse(house))
          case Revert(e) => Revert(GovernorRejected(e))
          case Ok(l') => Ok((s.(seats := s.seats[(k, rank) := Seat(leaf, proof, sender, now)]), l'))
  }

  function ActivateNextAlternate(s: Sort, now: uint64, id: nat, house: uint8, evidence: Hash): Result<Sort, Error>
    requires Shaped(s) && BooksShaped(s)
  {
    if !IsHouse(house) then Revert(InvalidHouse)
    else if id !in s.rounds then Revert(InvalidSession)
    else if now <= s.rounds[id].claimDeadline then Revert(AlternateActivationUnavailable)
    else if evidence == 0 then Revert(InvalidEvidence)
    else
      var k := HouseKey(id, house);
      if s.limits[k] as nat >= Seats(s.configs[k]) || s.limits[k] as nat >= |s.draws[k]| then
        Revert(AlternateActivationUnavailable)
      else Ok(s.(limits := s.limits[k := s.limits[k] + 1]))
  }

  datatype Call =
    | CallCreateRound(id: nat, snapshotHash: Hash, requestId: Hash, closesAt: uint64, claimDeadline: uint64,
                      creator: HouseConfig, user: HouseConfig)
    | CallFulfill(requestId: Hash, word: nat)
    | CallFinalizeNext(id: nat, house: uint8)
    | CallClaim(sender: Address, id: nat, house: uint8, rank: uint32, identity: Hash, wallet: Address, proof: seq<Hash>)
    | CallActivate(id: nat, house: uint8, evidence: Hash)

  function WithLedger(r: Result<Sort, Error>, l: G.Ledger): Result<(Sort, G.Ledger), Error> {
    match r
    case Revert(e) => Revert(e)
    case Ok(s) => Ok((s, l))
  }

  /** Only claimSeat reaches into the governor, and only through registerMember. */
  function Apply(o: Oracle, s: Sort, l: G.Ledger, now: uint64, call: Call): Result<(Sort, G.Ledger), Error>
    requires Shaped(s) && BooksShaped(s)
  {
    match call
    case CallCreateRound(id, snapshotHash, requestId, closesAt, claimDeadline, creator, user) =>
      WithLedger(CreateRound(s, l, now, id, snapshotHash, requestId, closesAt, claimDeadline, creator, user), l)
    case CallFulfill(requestId, word) => WithLedger(FulfillRandomness(s, now, requestId, word), l)
    case CallFinalizeNext(id, house) => WithLedger(FinalizeNextSelection(o, s, id, house), l)
    case CallClaim(sender, id, house, rank, identity, wallet, proof) =>
      ClaimSeat(o, s, l, now, sender, id, house, rank, identity, wallet, proof)
    case CallActivate(id, house, evidence) => WithLedger(ActivateNextAlternate(s, now, id, house, evidence), l)
  }
}
