/**
 The sortition contract as it runs: sparse shuffle cells, selected-index table, claimed flags and
 the calls into the governor, proved to follow the dense rules of SortitionRules.
 */
module Sortition {
  import opened Common
  import opened FisherYates
  import opened SparseShuffle
  import opened SortitionRules
  import G = GovernorRules
  import Inv = GovernorInvariants
  import SI = SortitionInvariants
  import Contract = Governor

  datatype Failure = Success | Failed(error: Error)

  ghost predicate Follows(rule: Result<(Sort, G.Ledger), Error>, failure: Failure,
                          before: Sort, ledgerBefore: G.Ledger, after: Sort, ledgerAfter: G.Ledger) {
    match rule
    case Ok((s, l)) => failure == Success && after == s && ledgerAfter == l
    case Revert(e) => failure == Failed(e) && after == before && ledgerAfter == ledgerBefore
  }

  type PerHouse<T> = map<HouseKey, T>

  lemma SessionsNumbered(g: Contract.Governor, now: uint64)
    requires g.Valid(now)
    ensures 0 !in g.sessions
  {
  }

  /** Storage of every House represents its draws. */
  ghost predicate CellsOk(configs: PerHouse<HouseConfig>, draws: PerHouse<seq<nat>>, counts: PerHouse<uint32>,
                          cells: PerHouse<Cells>, selected: PerHouse<Cells>) {
    && draws.Keys == configs.Keys && counts.Keys == configs.Keys
    && cells.Keys == configs.Keys && selected.Keys == configs.Keys
    && forall k :: k in configs ==> StoreOk(configs[k], draws[k], counts[k], cells[k], selected[k])
  }

  ghost predicate StoreOk(c: HouseConfig, drawn: seq<nat>, count: uint32, cells: Cells, selected: Cells) {
    count as nat == |drawn| && Represents(cells, selected, c.population, drawn)
  }

  lemma StoreKnown(configs: PerHouse<HouseConfig>, draws: PerHouse<seq<nat>>, counts: PerHouse<uint32>,
                   cells: PerHouse<Cells>, selected: PerHouse<Cells>, k: HouseKey)
    requires CellsOk(configs, draws, counts, cells, selected) && k in configs
    ensures k in draws && k in counts && k in cells && k in selected
    ensures StoreOk(configs[k], draws[k], counts[k], cells[k], selected[k])
  {
  }

  lemma CellsAfterRound(configs: PerHouse<HouseConfig>, draws: PerHouse<seq<nat>>, counts: PerHouse<uint32>,
                        cells: PerHouse<Cells>, selected: PerHouse<Cells>, ck: HouseKey, creator: HouseConfig,
                        uk: HouseKey, user: HouseConfig)
    requires CellsOk(configs, draws, counts, cells, selected) && ck != uk
    ensures CellsOk(configs[ck := creator][uk := user], draws[ck := []][uk := []], counts[ck := 0][uk := 0],
                    cells[ck := map[]][uk := map[]], selected[ck := map[]][uk := map[]])
  {
  }

  /** The candidate is who the dense list, one entry longer, names at its last rank. */
  ghost predicate NextOfList(n: uint32, before: seq<nat>, after: seq<nat>, rank: uint32, candidate: uint32) {
    && rank as nat == |before| && |after| == |before| + 1 && after[..rank] == before && candidate < n
    && ValidDraws(n as nat, after) && Selection(n as nat, after)[rank] == candidate as nat
  }

  ghost predicate Drew(configs: PerHouse<HouseConfig>, before: PerHouse<seq<nat>>, after: PerHouse<seq<nat>>, k: HouseKey,
                       rank: uint32, candidate: uint32) {
    k in before && k in after && k in configs && NextOfList(configs[k].population, before[k], after[k], rank, candidate)
  }

  /** The appended position is the rank plus keccak(word, session, house, rank) mod the candidates left. */
  ghost predicate DrewBy(o: Oracle, rounds: map<nat, Round>, configs: PerHouse<HouseConfig>, before: PerHouse<seq<nat>>,
                         after: PerHouse<seq<nat>>, k: HouseKey) {
    && k in before && k in configs && k.sessionId in rounds
    && var (rank, n) := (|before[k]|, configs[k].population as int);
    && rank < n
    && after == before[k := before[k] + [rank + o.draw(rounds[k.sessionId].word, k.sessionId, k.house, rank) % (n - rank)]]
  }

  lemma OffsetIsDrawn(o: Oracle, rounds: map<nat, Round>, configs: PerHouse<HouseConfig>, draws: PerHouse<seq<nat>>,
                      k: HouseKey, rank: uint32, offset: nat)
    requires k in draws && k in configs && k.sessionId in rounds
    requires rank as nat == |draws[k]| && rank < configs[k].population
    requires offset == o.draw(rounds[k.sessionId].word, k.sessionId, k.house, rank as nat) % (configs[k].population - rank) as nat
    ensures rank as nat + offset < configs[k].population as nat
    ensures DrawAt(o, rounds[k.sessionId].word, k, configs[k].population as nat, rank as nat) == rank as nat + offset
    ensures DrewBy(o, rounds, configs, draws, draws[k := draws[k] + [rank as nat + offset]], k)
  {
  }

  /** The activated rank is the first beyond the old limit, drawn and on offer. */
  predicate Widened(configs: PerHouse<HouseConfig>, draws: PerHouse<seq<nat>>, limits: PerHouse<uint32>, k: HouseKey,
                    rank: uint32) {
    && k in configs && k in draws && k in limits
    && rank == limits[k] && rank as nat < |draws[k]| && rank as nat < Seats(configs[k])
  }

  /** One draw on one House's stored cells, and the candidate it stores. */
  lemma StoreAfterDraw(c: HouseConfig, drawn: seq<nat>, rank: uint32, cells: Cells, selected: Cells, position: uint32)
    requires StoreOk(c, drawn, rank, cells, selected) && rank <= position < c.population
    ensures ShuffleValue(cells, rank) < c.population && ShuffleValue(cells, position) < c.population
    ensures StoreOk(c, drawn + [position as nat], rank + 1, cells[position := ShuffleValue(cells, rank) + 1],
                    selected[rank := ShuffleValue(cells, position) + 1])
    ensures NextOfList(c.population, drawn, drawn + [position as nat], rank, ShuffleValue(cells, position))
  {
    CellsDecode(cells, selected, c.population, drawn, position);
    CellsDecode(cells, selected, c.population, drawn, rank);
    DrawRepresented(cells, selected, c.population, drawn, rank, position);
    assert (drawn + [position as nat])[..|drawn|] == drawn;
    hide HoldsRest, HoldsList;
  }

  lemma CellsAfterDraw(configs: PerHouse<HouseConfig>, draws: PerHouse<seq<nat>>, counts: PerHouse<uint32>,
                       cells: PerHouse<Cells>, selected: PerHouse<Cells>, k: HouseKey, drawn: seq<nat>, count: uint32,
                       cells': Cells, selected': Cells)
    requires CellsOk(configs, draws, counts, cells, selected) && k in configs
    requires StoreOk(configs[k], drawn, count, cells', selected')
    ensures CellsOk(configs, draws[k := drawn], counts[k := count], cells[k := cells'], selected[k := selected'])
  {
    hide StoreOk;
  }

  /** A stored index is the candidate of an already drawn rank, plus one. */
  lemma ListStored(c: HouseConfig, drawn: seq<nat>, count: uint32, cells: Cells, selected: Cells, rank: uint32)
    requires StoreOk(c, drawn, count, cells, selected) && BookShaped(c, drawn)
    ensures Read(selected, rank, 0) == 0 <==> rank as nat >= |drawn|
    ensures rank as nat < |drawn| ==> Read(selected, rank, 0) as nat == Selection(c.population as nat, drawn)[rank] + 1
  {
  }

  /** The two flag mappings say which seats are taken and whose identities took them. */
  ghost predicate FlagsOk(seats: map<(HouseKey, uint32), Seat>, claimed: set<(HouseKey, uint32)>,
                          used: set<(nat, Hash)>) {
    && claimed == seats.Keys
    && used == set k | k in seats :: (k.0.sessionId, seats[k].leaf.identity)
  }

  lemma FlagsAfterClaim(seats: map<(HouseKey, uint32), Seat>, claimed: set<(HouseKey, uint32)>,
                        used: set<(nat, Hash)>, key: (HouseKey, uint32), seat: Seat)
    requires FlagsOk(seats, claimed, used) && key !in seats
    ensures FlagsOk(seats[key := seat], claimed + {key}, used + {(key.0.sessionId, seat.leaf.identity)})
  {
  }

  /** Request ids map to existing rounds, and no round is numbered zero. */
  ghost predicate RequestsOk(s: Sort) {
    && (forall q :: q in s.requests ==> s.requests[q] in s.rounds)
    && 0 !in s.rounds
  }

  /** Storage agrees with the dense books, the seats and the requests. */
  ghost predicate StorageOk(s: Sort, counts: PerHouse<uint32>, cells: PerHouse<Cells>, selected: PerHouse<Cells>,
                            claimed: set<(HouseKey, uint32)>, used: set<(nat, Hash)>) {
    && Shaped(s) && BooksShaped(s) && RequestsOk(s)
    && CellsOk(s.configs, s.draws, counts, cells, selected)
    && FlagsOk(s.seats, claimed, used)
  }

  /** What a call on an existing round may read. */
  lemma BookKnown(s: Sort, counts: PerHouse<uint32>, cells: PerHouse<Cells>, selected: PerHouse<Cells>,
                  claimed: set<(HouseKey, uint32)>, used: set<(nat, Hash)>, k: HouseKey)
    requires StorageOk(s, counts, cells, selected, claimed, used) && IsHouse(k.house) && k.sessionId in s.rounds
    ensures k in s.configs && k in s.draws && k in s.limits && k in counts && k in cells && k in selected
    ensures counts[k] as nat == |s.draws[k]| <= Seats(s.configs[k]) <= s.configs[k].population as nat
    ensures StoreOk(s.configs[k], s.draws[k], counts[k], cells[k], selected[k]) && BookShaped(s.configs[k], s.draws[k])
  {
  }

  lemma RoundStored(s: Sort, s': Sort, l: G.Ledger, now: uint64, call: Call, counts: PerHouse<uint32>,
                    cells: PerHouse<Cells>, selected: PerHouse<Cells>, claimed: set<(HouseKey, uint32)>,
                    used: set<(nat, Hash)>)
    requires StorageOk(s, counts, cells, selected, claimed, used) && call.CallCreateRound? && 0 !in l.sessions
    requires CreateRound(s, l, now, call.id, call.snapshotHash, call.requestId, call.closesAt, call.claimDeadline,
                         call.creator, call.user) == Ok(s')
    ensures var ck, uk := HouseKey(call.id, CREATOR_HOUSE), HouseKey(call.id, USER_HOUSE);
            StorageOk(s', counts[ck := 0][uk := 0], cells[ck := map[]][uk := map[]],
                      selected[ck := map[]][uk := map[]], claimed, used)
  {
    hide BookShaped, FlagsOk, CellsOk, Shaped, BooksShaped, SI.SortLater;
    SI.CreateRoundMovesOn(s, s', l, now, call);
    CellsAfterRound(s.configs, s.draws, counts, cells, selected, HouseKey(call.id, CREATOR_HOUSE), call.creator,
                    HouseKey(call.id, USER_HOUSE), call.user);
  }

  /** A draw keeps storage and books together, and both decoded cells can be stored plus one. */
  lemma DrawStored(o: Oracle, s: Sort, s': Sort, k: HouseKey, position: uint32, counts: PerHouse<uint32>,
                   cells: PerHouse<Cells>, selected: PerHouse<Cells>, claimed: set<(HouseKey, uint32)>,
                   used: set<(nat, Hash)>)
    requires StorageOk(s, counts, cells, selected, claimed, used) && k in s.configs
    requires k in counts && k in cells && k in selected && k in s.draws
    requires counts[k] <= position < s.configs[k].population
    requires FinalizeNextSelection(o, s, k.sessionId, k.house) == Ok(s')
    requires s' == s.(draws := s.draws[k := s.draws[k] + [position as nat]])
    ensures var rank, rankValue, candidate :=
              counts[k], ShuffleValue(cells[k], counts[k]), ShuffleValue(cells[k], position);
            && rankValue < s.configs[k].population && candidate < s.configs[k].population
            && StorageOk(s', counts[k := rank + 1], cells[k := cells[k][position := rankValue + 1]],
                         selected[k := selected[k][rank := candidate + 1]], claimed, used)
            && NextOfList(s.configs[k].population, s.draws[k], s'.draws[k], rank, candidate)
  {
    hide BookShaped, FlagsOk, StoreOk, NextOfList;
    StoreKnown(s.configs, s.draws, counts, cells, selected, k);
    StoreAfterDraw(s.configs[k], s.draws[k], counts[k], cells[k], selected[k], position);
    var rank, rankValue, candidate := counts[k], ShuffleValue(cells[k], counts[k]), ShuffleValue(cells[k], position);
    CellsAfterDraw(s.configs, s.draws, counts, cells, selected, k, s.draws[k] + [position as nat], rank + 1,
                   cells[k][position := rankValue + 1], selected[k][rank := candidate + 1]);
    hide CellsOk, Shaped, BooksShaped, SI.SortLater, FinalizeNextSelection;
    SI.FinalizeMovesOn(o, s, s', k.sessionId, k.house);
  }

  lemma RequestsKnown(s: Sort, counts: PerHouse<uint32>, cells: PerHouse<Cells>, selected: PerHouse<Cells>,
                      claimed: set<(HouseKey, uint32)>, used: set<(nat, Hash)>, q: Hash)
    requires StorageOk(s, counts, cells, selected, claimed, used)
    ensures Read(s.requests, q, 0) != 0 <==> q in s.requests
  {
  }

  lemma SeatsKnown(s: Sort, counts: PerHouse<uint32>, cells: PerHouse<Cells>, selected: PerHouse<Cells>,
                   claimed: set<(HouseKey, uint32)>, used: set<(nat, Hash)>, key: (HouseKey, uint32), identity: Hash)
    requires StorageOk(s, counts, cells, selected, claimed, used)
    ensures key in claimed <==> key in s.seats
    ensures (key.0.sessionId, identity) in used <==> IdentityUsed(s, key.0.sessionId, identity)
  {
  }

  lemma SeatStored(s: Sort, counts: PerHouse<uint32>, cells: PerHouse<Cells>, selected: PerHouse<Cells>,
                   claimed: set<(HouseKey, uint32)>, used: set<(nat, Hash)>, key: (HouseKey, uint32), seat: Seat)
    requires StorageOk(s, counts, cells, selected, claimed, used) && key !in s.seats
    ensures StorageOk(s.(seats := s.seats[key := seat]), counts, cells, selected, claimed + {key},
                      used + {(key.0.sessionId, seat.leaf.identity)})
  {
    hide FlagsOk, CellsOk, BookShaped;
    FlagsAfterClaim(s.seats, claimed, used, key, seat);
  }

  lemma LimitStored(s: Sort, counts: PerHouse<uint32>, cells: PerHouse<Cells>, selected: PerHouse<Cells>,
                    claimed: set<(HouseKey, uint32)>, used: set<(nat, Hash)>, k: HouseKey, limit: uint32)
    requires StorageOk(s, counts, cells, selected, claimed, used) && k in s.configs
    ensures StorageOk(s.(limits := s.limits[k := limit]), counts, cells, selected, claimed, used)
  {
    hide FlagsOk, CellsOk, BookShaped;
  }

  /** The effects claimSeat has once its own checks have passed. */
  function Seated(s: Sort, l: G.Ledger, now: uint64, k: HouseKey, rank: uint32, leaf: Leaf,
                  proof: seq<Hash>, caller: Address)
    : Result<(Sort, G.Ledger), Error>
  {
    match G.RegisterMember(l, now, k.sessionId, leaf.wallet, GovernorHouse(k.house))
    case Revert(e) => Revert(GovernorRejected(e))
    case Ok(l') => Ok((s.(seats := s.seats[(k, rank) := Seat(leaf, proof, caller, now)]), l'))
  }

  class Sortition {
    const oracle: Oracle
    const governor: Contract.Governor
    var rounds: map<nat, Round>
    var houseConfigs: PerHouse<HouseConfig>
    var selectedCount: PerHouse<uint32>
    var activeRankLimit: PerHouse<uint32>
    var requestSessionId: map<Hash, nat>
    var shuffleValues: PerHouse<Cells>
    var selectedIndexPlusOne: PerHouse<Cells>
    var rankClaimed: set<(HouseKey, uint32)>
    var governanceIdentityUsed: set<(nat, Hash)>
    ghost var draws: PerHouse<seq<nat>>
    ghost var seats: map<(HouseKey, uint32), Seat>

    ghost function State(): Sort
      reads this
    {
      Sort(rounds, houseConfigs, draws, activeRankLimit, requestSessionId, seats)
    }

    ghost predicate Stored()
      reads this
    {
      StorageOk(State(), selectedCount, shuffleValues, selectedIndexPlusOne, rankClaimed, governanceIdentityUsed)
    }

    /** Both contracts are in order, and every round, list, limit and seat is, from this time on. */
    ghost predicate Valid(now: uint64)
      reads this, governor
    {
      governor.Valid(now) && Stored() && SI.SortOk(oracle, State(), governor.Ledger(), now)
    }

    lemma LaterClock(before: uint64, now: uint64)
      requires Valid(before) && before <= now
      ensures Valid(now)
    {
      hide StorageOk, Contract.Governor.Valid, SI.SortOk, SI.LedgerGrows;
      governor.LaterClock(before, now);
      SI.ClockMovesOn(oracle, State(), governor.Ledger(), before, now);
    }

    /** Whatever others call the governor for in between, the sortition stays in order. */
    lemma GovernorMovedOn(before: G.Ledger, now: uint64)
      requires governor.Valid(now) && Stored() && SI.SortOk(oracle, State(), before, now)
      requires SI.LedgerGrows(before, governor.Ledger())
      ensures Valid(now)
    {
      SI.WorldMovesOn(oracle, State(), before, governor.Ledger(), now, now);
    }

    /** A call that did what the rules say keeps every invariant. */
    lemma Kept(before: Sort, ledgerBefore: G.Ledger, now: uint64, call: Call)
      requires SI.SortOk(oracle, before, ledgerBefore, now)
      requires Apply(oracle, before, ledgerBefore, now, call) == Ok((State(), governor.Ledger()))
      ensures SI.SortOk(oracle, State(), governor.Ledger(), now)
    {
      SI.ApplyKeeps(oracle, before, State(), ledgerBefore, governor.Ledger(), now, call);
    }

    ghost function Rule(now: uint64, call: Call): Result<(Sort, G.Ledger), Error>
      requires Stored()
      reads this, governor
    {
      Apply(oracle, State(), governor.Ledger(), now, call)
    }

    constructor (now: uint64, o: Oracle, g: Contract.Governor)
      requires g.Valid(now)
      ensures Valid(now) && State() == DEPLOYED && oracle == o && governor == g
    {
      oracle, governor := o, g;
      rounds, houseConfigs, selectedCount, activeRankLimit, requestSessionId := map[], map[], map[], map[], map[];
      shuffleValues, selectedIndexPlusOne, rankClaimed, governanceIdentityUsed := map[], map[], {}, {};
      draws, seats := map[], map[];
      new;
      SI.DeployedOk(o, g.Ledger(), now);
    }

    method CreateRound(now: uint64, id: nat, snapshotHash: Hash, requestId: Hash, closesAt: uint64,
                       claimDeadline: uint64, creator: HouseConfig, user: HouseConfig) returns (failure: Failure)
      requires Valid(now)
      modifies this
      ensures Valid(now)
      ensures Follows(old(Rule(now, CallCreateRound(id, snapshotHash, requestId, closesAt, claimDeadline, creator, user))),
                      failure, old(State()), old(governor.Ledger()), State(), governor.Ledger())
      ensures failure == Success ==>
        && rounds == old(rounds)[id := Round(snapshotHash, requestId, closesAt, claimDeadline, 0, false, now, 0)]
        && houseConfigs == old(houseConfigs)[HouseKey(id, 1) := creator][HouseKey(id, 2) := user]
    {
      hide StorageOk, Contract.Governor.Valid, SI.SortOk;
      RequestsKnown(State(), selectedCount, shuffleValues, selectedIndexPlusOne, rankClaimed, governanceIdentityUsed,
                    requestId);
      if id in rounds { return Failed(RoundAlreadyExists); }
      if snapshotHash == 0 || requestId == 0 || creator.root == 0 || user.root == 0 {
        return Failed(InvalidConfiguration);
      }
      if Read(requestSessionId, requestId, 0) != 0 { return Failed(RandomnessRequestAlreadyUsed); }
      if id !in governor.sessions { return Failed(InvalidSession); }
      if closesAt <= now || claimDeadline <= closesAt || claimDeadline >= governor.sessions[id].startsAt {
        return Failed(InvalidTimeRange);
      }
      var feasible := ValidateHouseConfiguration(creator);
      if !feasible { return Failed(InvalidConfiguration); }
      feasible := ValidateHouseConfiguration(user);
      if !feasible { return Failed(InvalidConfiguration); }
      SessionsNumbered(governor, now);
      StoreRound(now, id, snapshotHash, requestId, closesAt, claimDeadline, creator, user);
      failure := Success;
      Kept(old(State()), old(governor.Ledger()), now, CallCreateRound(id, snapshotHash, requestId, closesAt, claimDeadline, creator, user));
    }

    method StoreRound(now: uint64, id: nat, snapshotHash: Hash, requestId: Hash, closesAt: uint64,
                      claimDeadline: uint64, creator: HouseConfig, user: HouseConfig)
      requires Stored() && 0 !in governor.sessions
      requires SortitionRules.CreateRound(State(), governor.Ledger(), now, id, snapshotHash, requestId, closesAt,
                                          claimDeadline, creator, user)
               == Ok(NewRound(State(), now, id, snapshotHash, requestId, closesAt, claimDeadline, creator, user))
      modifies this
      ensures Stored()
      ensures State() == NewRound(old(State()), now, id, snapshotHash, requestId, closesAt, claimDeadline, creator, user)
    {
      hide StorageOk, SortitionRules.CreateRound;
      RoundStored(State(), NewRound(State(), now, id, snapshotHash, requestId, closesAt, claimDeadline, creator, user),
                  governor.Ledger(), now,
                  CallCreateRound(id, snapshotHash, requestId, closesAt, claimDeadline, creator, user),
                  selectedCount, shuffleValues, selectedIndexPlusOne, rankClaimed, governanceIdentityUsed);
      var ck, uk := HouseKey(id, CREATOR_HOUSE), HouseKey(id, USER_HOUSE);
      rounds := rounds[id := Round(snapshotHash, requestId, closesAt, claimDeadline, 0, false, now, 0)];
      houseConfigs := houseConfigs[ck := creator][uk := user];
      selectedCount := selectedCount[ck := 0][uk := 0];
      activeRankLimit := activeRankLimit[ck := creator.primarySeats][uk := user.primarySeats];
      requestSessionId := requestSessionId[requestId := id];
      draws := draws[ck := []][uk := []];
      shuffleValues, selectedIndexPlusOne := shuffleValues[ck := map[]][uk := map[]],
                                             selectedIndexPlusOne[ck := map[]][uk := map[]];
    }

    method ValidateHouseConfiguration(c: HouseConfig) returns (feasible: bool)
      ensures feasible <==> Feasible(c)
    {
      feasible := !(c.population == 0 || c.primarySeats == 0
                    || c.primarySeats as nat + c.alternateSeats as nat > c.population as nat);
    }

    method FulfillRandomness(now: uint64, requestId: Hash, word: nat) returns (failure: Failure)
      requires Valid(now)
      modifies this`rounds
      ensures Valid(now)
      ensures Follows(old(Rule(now, CallFulfill(requestId, word))), failure, old(State()), old(governor.Ledger()),
                      State(), governor.Ledger())
      ensures failure == Success ==>
        var id := Read(requestSessionId, requestId, 0);
        && id in old(rounds) && old(rounds)[id].requestId == requestId
        && rounds == old(rounds)[id := old(rounds)[id].(word := word, fulfilled := true, fulfilledAt := now)]
    {
      hide BookShaped, FlagsOk, CellsOk, Contract.Governor.Valid, SI.SortOk;
      var id := Read(requestSessionId, requestId, 0);
      if id !in rounds || rounds[id].requestId != requestId { return Failed(InvalidSession); }
      if now < rounds[id].closesAt { return Failed(EligibilityStillOpen); }
      if now >= rounds[id].claimDeadline { return Failed(ClaimWindowClosed); }
      if rounds[id].fulfilled { return Failed(RandomnessAlreadyFulfilled); }
      if word == 0 { return Failed(InvalidConfiguration); }
      rounds := rounds[id := rounds[id].(word := word, fulfilled := true, fulfilledAt := now)];
      failure := Success;
      Kept(old(State()), old(governor.Ledger()), now, CallFulfill(requestId, word));
    }

    /** One permissionless draw in uint32 arithmetic: the candidate is the next entry of the dense list. */
    method FinalizeNextSelection(now: uint64, id: nat, house: uint8)
      returns (failure: Failure, rank: uint32, candidate: uint32)
      requires Valid(now)
      modifies this`draws, this`shuffleValues, this`selectedIndexPlusOne, this`selectedCount
      ensures Valid(now)
      ensures Follows(old(Rule(now, CallFinalizeNext(id, house))), failure, old(State()), old(governor.Ledger()),
                      State(), governor.Ledger())
      ensures failure == Success ==> Drew(houseConfigs, old(draws), draws, HouseKey(id, house), rank, candidate)
      ensures failure == Success ==> DrewBy(oracle, rounds, houseConfigs, old(draws), draws, HouseKey(id, house))
    {
      hide StorageOk, StoreOk, BookShaped, Contract.Governor.Valid, NextOfList, SI.SortOk, DrewBy, DrawAt;
      rank, candidate := 0, 0;
      if house != CREATOR_HOUSE && house != USER_HOUSE { return Failed(InvalidHouse), 0, 0; }
      if id !in rounds { return Failed(InvalidSession), 0, 0; }
      if !rounds[id].fulfilled { return Failed(RandomnessMissing), 0, 0; }
      var k := HouseKey(id, house);
      BookKnown(State(), selectedCount, shuffleValues, selectedIndexPlusOne, rankClaimed, governanceIdentityUsed, k);
      rank := selectedCount[k];
      var totalSelections := houseConfigs[k].primarySeats + houseConfigs[k].alternateSeats;
      if rank >= totalSelections { return Failed(AllSelectionsFinalized), rank, 0; }

      var remaining := houseConfigs[k].population - rank;
      var offset := oracle.draw(rounds[id].word, id, house, rank as nat) % remaining as nat;
      OffsetIsDrawn(oracle, rounds, houseConfigs, draws, k, rank, offset);
      candidate := Draw(now, k, rank + offset as uint32);
      failure := Success;
      Kept(old(State()), old(governor.Ledger()), now, CallFinalizeNext(id, house));
    }

    /** The two sparse writes. */
    method Draw(now: uint64, k: HouseKey, randomPosition: uint32) returns (candidate: uint32)
      requires Stored() && k in houseConfigs && k in selectedCount && k in shuffleValues && k in selectedIndexPlusOne
      requires k in draws && selectedCount[k] <= randomPosition < houseConfigs[k].population
      requires var r := SortitionRules.FinalizeNextSelection(oracle, State(), k.sessionId, k.house);
               r.Ok? && r.value == State().(draws := draws[k := draws[k] + [randomPosition as nat]])
      modifies this`draws, this`shuffleValues, this`selectedIndexPlusOne, this`selectedCount
      ensures Stored() && draws == old(draws)[k := old(draws)[k] + [randomPosition as nat]]
      ensures NextOfList(houseConfigs[k].population, old(draws)[k], draws[k], old(selectedCount)[k], candidate)
    {
      hide StorageOk, NextOfList, SortitionRules.FinalizeNextSelection, Contract.Governor.Valid;
      var rank := selectedCount[k];
      ghost var s' := State().(draws := draws[k := draws[k] + [randomPosition as nat]]);
      DrawStored(oracle, State(), s', k, randomPosition, selectedCount, shuffleValues, selectedIndexPlusOne,
                 rankClaimed, governanceIdentityUsed);
      candidate := ShuffleValue(shuffleValues[k], randomPosition);
      var rankValue := ShuffleValue(shuffleValues[k], rank);
      shuffleValues := shuffleValues[k := shuffleValues[k][randomPosition := rankValue + 1]];
      selectedIndexPlusOne := selectedIndexPlusOne[k := selectedIndexPlusOne[k][rank := candidate + 1]];
      selectedCount := selectedCount[k := rank + 1];
      draws := draws[k := draws[k] + [randomPosition as nat]];
      assert State() == s';
    }

    /** The flags are set before the governor is called; a revert there undoes them. */
    method ClaimSeat(now: uint64, sender: Address, id: nat, house: uint8, rank: uint32, identity: Hash,
                     wallet: Address, proof: seq<Hash>) returns (failure: Failure)
      requires Valid(now)
      modifies this`rankClaimed, this`governanceIdentityUsed, this`seats, governor
      ensures Valid(now)
      ensures Follows(old(Rule(now, CallClaim(sender, id, house, rank, identity, wallet, proof))), failure,
                      old(State()), old(governor.Ledger()), State(), governor.Ledger())
      ensures failure == Success && house == 1 ==>
        governor.memberHouse == old(governor.memberHouse)[(id, wallet) := G.CreatorHouse]
      ensures failure == Success && house == 2 ==>
        governor.memberHouse == old(governor.memberHouse)[(id, wallet) := G.UserHouse]
    {
      hide StorageOk, StoreOk, BookShaped, Contract.Governor.Valid, G.RegisterMember, IdentityUsed, Selection, SI.SortOk;
      if house != CREATOR_HOUSE && house != USER_HOUSE { return Failed(InvalidHouse); }
      if id !in rounds { return Failed(InvalidSession); }
      if sender != wallet { return Failed(VotingWalletMismatch); }
      if identity == 0 || wallet == 0 { return Failed(InvalidConfiguration); }
      if id !in governor.sessions || now >= governor.sessions[id].startsAt { return Failed(ClaimWindowClosed); }
      var k := HouseKey(id, house);
      BookKnown(State(), selectedCount, shuffleValues, selectedIndexPlusOne, rankClaimed, governanceIdentityUsed, k);
      if rank < houseConfigs[k].primarySeats && now > rounds[id].claimDeadline { return Failed(ClaimWindowClosed); }
      if rank >= activeRankLimit[k] { return Failed(RankNotActive); }
      ListStored(houseConfigs[k], draws[k], selectedCount[k], shuffleValues[k], selectedIndexPlusOne[k], rank);
      SeatsKnown(State(), selectedCount, shuffleValues, selectedIndexPlusOne, rankClaimed, governanceIdentityUsed,
                 (k, rank), identity);
      var encodedIndex := Read(selectedIndexPlusOne[k], rank, 0);
      if encodedIndex == 0 { return Failed(SelectionMissing); }
      if (k, rank) in rankClaimed { return Failed(RankAlreadyClaimed); }
      if (id, identity) in governanceIdentityUsed { return Failed(GovernanceIdentityAlreadyUsed); }
      var leaf := Leaf(encodedIndex - 1, identity, wallet);
      if !oracle.proves(proof, houseConfigs[k].root, leaf) { return Failed(InvalidEligibilityProof); }
      failure := TakeSeat(now, k, rank, leaf, proof, sender);
      if failure == Success {
        Kept(old(State()), old(governor.Ledger()), now, CallClaim(sender, id, house, rank, identity, wallet, proof));
      }
    }

    /** The effects of a claim: flags, then the governor, whose revert undoes the flags. */
    method TakeSeat(now: uint64, k: HouseKey, rank: uint32, leaf: Leaf, proof: seq<Hash>, caller: Address)
      returns (failure: Failure)
      requires governor.Valid(now) && Stored() && (k, rank) !in seats && k in houseConfigs
      modifies this`rankClaimed, this`governanceIdentityUsed, this`seats, governor
      ensures governor.Valid(now) && Stored()
      ensures Follows(Seated(old(State()), old(governor.Ledger()), now, k, rank, leaf, proof, caller), failure, old(State()),
                      old(governor.Ledger()), State(), governor.Ledger())
      ensures failure == Success ==>
        governor.memberHouse == old(governor.memberHouse)[(k.sessionId, leaf.wallet) := GovernorHouse(k.house)]
    {
      hide StorageOk, Contract.Governor.Valid, G.RegisterMember;
      var claimedBefore, usedBefore := rankClaimed, governanceIdentityUsed;
      SeatStored(State(), selectedCount, shuffleValues, selectedIndexPlusOne, rankClaimed, governanceIdentityUsed,
                 (k, rank), Seat(leaf, proof, caller, now));
      rankClaimed := rankClaimed + {(k, rank)};
      governanceIdentityUsed := governanceIdentityUsed + {(k.sessionId, leaf.identity)};
      var rejected := Admit(now, k.sessionId, leaf.wallet, GovernorHouse(k.house));
      if rejected != None {
        rankClaimed, governanceIdentityUsed := claimedBefore, usedBefore;
        return Failed(GovernorRejected(rejected.value));
      }
      seats := seats[(k, rank) := Seat(leaf, proof, caller, now)];
      failure := Success;
    }

    /** The call into the governor. */
    method Admit(now: uint64, id: nat, wallet: Address, house: G.House) returns (rejected: Option<G.Error>)
      requires governor.Valid(now)
      modifies governor
      ensures governor.Valid(now)
      ensures match G.RegisterMember(old(governor.Ledger()), now, id, wallet, house)
              case Revert(e) => rejected == Some(e) && governor.Ledger() == old(governor.Ledger())
              case Ok(l) => rejected == None && governor.Ledger() == l
      ensures rejected == None ==> governor.memberHouse == old(governor.memberHouse)[(id, wallet) := house]
    {
      hide Contract.Governor.Valid, G.RegisterMember;
      rejected := governor.RegisterMember(now, id, wallet, house);
    }

    method ActivateNextAlternate(now: uint64, id: nat, house: uint8, evidence: Hash)
      returns (failure: Failure, rank: uint32)
      requires Valid(now)
      modifies this`activeRankLimit
      ensures Valid(now)
      ensures Follows(old(Rule(now, CallActivate(id, house, evidence))), failure, old(State()), old(governor.Ledger()),
                      State(), governor.Ledger())
      ensures failure == Success ==> Widened(houseConfigs, draws, old(activeRankLimit), HouseKey(id, house), rank)
    {
      hide StorageOk, StoreOk, BookShaped, Contract.Governor.Valid, SI.SortOk;
      rank := 0;
      if house != CREATOR_HOUSE && house != USER_HOUSE { return Failed(InvalidHouse), 0; }
      if id !in rounds { return Failed(InvalidSession), 0; }
      if now <= rounds[id].claimDeadline { return Failed(AlternateActivationUnavailable), 0; }
      if evidence == 0 { return Failed(InvalidEvidence), 0; }
      var k := HouseKey(id, house);
      BookKnown(State(), selectedCount, shuffleValues, selectedIndexPlusOne, rankClaimed, governanceIdentityUsed, k);
      var totalSelections := houseConfigs[k].primarySeats + houseConfigs[k].alternateSeats;
      rank := activeRankLimit[k];
      if rank >= totalSelections || rank >= selectedCount[k] { return Failed(AlternateActivationUnavailable), rank; }
      LimitStored(State(), selectedCount, shuffleValues, selectedIndexPlusOne, rankClaimed, governanceIdentityUsed, k,
                  rank + 1);
      activeRankLimit := activeRankLimit[k := rank + 1];
      failure := Success;
      Kept(old(State()), old(governor.Ledger()), now, CallActivate(id, house, evidence));
    }
  }
}
