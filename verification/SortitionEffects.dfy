/**
 Exactly when the sortition accepts each call and exactly what the call then changes, stated in the
 contract's own fields and numbers.
 */
module SortitionEffects {
  import opened Common
  import opened FisherYates
  import opened SortitionRules
  import opened SortitionInvariants
  import G = GovernorRules

  /** Each House keeps its own configuration. */
  lemma WhenRoundOpens(o: Oracle, s: Sort, l: G.Ledger, now: uint64, call: Call)
    requires Shaped(s) && BooksShaped(s) && call.CallCreateRound?
    ensures var (r, ck, uk) := (Apply(o, s, l, now, call), HouseKey(call.id, 1), HouseKey(call.id, 2));
            && (r.Ok? <==>
                  && call.id !in s.rounds && call.id in l.sessions && call.requestId !in s.requests
                  && call.snapshotHash != 0 && call.requestId != 0 && call.creator.root != 0 && call.user.root != 0
                  && now < call.closesAt < call.claimDeadline < l.sessions[call.id].startsAt
                  && 0 < call.creator.primarySeats as int
                  && call.creator.primarySeats as int + call.creator.alternateSeats as int <= call.creator.population as int
                  && 0 < call.user.primarySeats as int
                  && call.user.primarySeats as int + call.user.alternateSeats as int <= call.user.population as int)
            && (r.Ok? ==>
                  && r.value.1 == l
                  && r.value.0 == s.(rounds := s.rounds[call.id := Round(call.snapshotHash, call.requestId, call.closesAt,
                                                                          call.claimDeadline, 0, false, now, 0)],
                                     configs := s.configs[ck := call.creator][uk := call.user],
                                     draws := s.draws[ck := []][uk := []],
                                     limits := s.limits[ck := call.creator.primarySeats][uk := call.user.primarySeats],
                                     requests := s.requests[call.requestId := call.id]))
  {
  }

  /** The word that was delivered is stored for the round that asked for it. */
  lemma WhenRandomnessArrives(o: Oracle, s: Sort, l: G.Ledger, now: uint64, requestId: Hash, word: nat)
    requires SortOk(o, s, l, now)
    ensures Shaped(s) && BooksShaped(s)
    ensures var r := Apply(o, s, l, now, CallFulfill(requestId, word));
            && (r.Ok? <==>
                  && requestId in s.requests && s.requests[requestId] in s.rounds && word != 0
                  && var round := s.rounds[s.requests[requestId]];
                  && round.closesAt <= now < round.claimDeadline && !round.fulfilled)
            && (r.Ok? ==>
                  var (id, round) := (s.requests[requestId], s.rounds[s.requests[requestId]]);
                  r.value == (s.(rounds := s.rounds[id := round.(word := word, fulfilled := true, fulfilledAt := now)]), l))
  {
    hide BooksOk, SeatsOk;
    assert Shaped(s) && BooksShaped(s) by { BooksInShape(o, s, now); }
    assert 0 in s.rounds ==> RoundOk(s, l, 0, now);
  }

  lemma BooksInShape(o: Oracle, s: Sort, now: uint64)
    requires BooksOk(o, s, now)
    ensures Shaped(s) && BooksShaped(s)
  {
  }

  /** A draw appends rank + keccak(word, session, house, rank) mod the candidates left. */
  lemma WhenRankIsDrawn(o: Oracle, s: Sort, l: G.Ledger, now: uint64, id: nat, house: uint8)
    requires Shaped(s) && BooksShaped(s)
    ensures var (r, k) := (Apply(o, s, l, now, CallFinalizeNext(id, house)), HouseKey(id, house));
            && (r.Ok? <==>
                  && (house == 1 || house == 2) && id in s.rounds && s.rounds[id].fulfilled
                  && |s.draws[k]| < s.configs[k].primarySeats as int + s.configs[k].alternateSeats as int)
            && (r.Ok? ==>
                  var (rank, n) := (|s.draws[k]|, s.configs[k].population as int);
                  && rank < n
                  && r.value == (s.(draws := s.draws[k := s.draws[k] + [rank + o.draw(s.rounds[id].word, id, house, rank) % (n - rank)]]), l))
  {
  }

  /**
   A seat is taken exactly by the owner of the drawn and proven leaf, in time and for the first time, and it
   makes the wallet a member of that House: of the Creator House for house 1, of the User House for house 2.
   */
  lemma WhenSeatIsClaimed(o: Oracle, s: Sort, l: G.Ledger, now: uint64, call: Call)
    requires Shaped(s) && BooksShaped(s) && call.CallClaim?
    ensures var (r, k, rank) := (Apply(o, s, l, now, call), HouseKey(call.id, call.house), call.rank);
            && (r.Ok? <==>
                  && (call.house == 1 || call.house == 2) && call.id in s.rounds && call.sender == call.wallet
                  && call.identity != 0 && call.wallet != 0
                  && call.id in l.sessions && now < l.sessions[call.id].startsAt
                  && (rank < s.configs[k].primarySeats ==> now <= s.rounds[call.id].claimDeadline)
                  && rank < s.limits[k] && rank as nat < |s.draws[k]| && (k, rank) !in s.seats
                  && (forall j :: j in s.seats && j.0.sessionId == call.id ==> s.seats[j].leaf.identity != call.identity)
                  && o.proves(call.proof, s.configs[k].root, LeafAt(s, k, rank, call.identity, call.wallet))
                  && Read(l.houses, (call.id, call.wallet), G.NoHouse) == G.NoHouse)
            && (r.Ok? ==>
                  && r.value.0 == s.(seats := s.seats[(k, rank) := Seat(LeafAt(s, k, rank, call.identity, call.wallet),
                                                                        call.proof, call.wallet, now)])
                  && (call.house == 1 ==> r.value.1 == l.(houses := l.houses[(call.id, call.wallet) := G.CreatorHouse]))
                  && (call.house == 2 ==> r.value.1 == l.(houses := l.houses[(call.id, call.wallet) := G.UserHouse])))
  {
    hide BookShaped, ValidDraws, Selection, G.RegisterMember, Trace;
    var k := HouseKey(call.id, call.house);
    if IsHouse(call.house) && call.id in s.rounds && call.rank as nat < |s.draws[k]| { TracedInRange(s, k, call.rank); }
    WhenAdmitted(l, now, call.id, call.wallet, GovernorHouse(call.house));
  }

  lemma WhenAdmitted(l: G.Ledger, now: uint64, id: nat, wallet: Address, house: G.House)
    ensures var r := G.RegisterMember(l, now, id, wallet, house);
            && (r.Ok? <==>
                  && id in l.sessions && now < l.sessions[id].startsAt && wallet != 0 && house != G.NoHouse
                  && Read(l.houses, (id, wallet), G.NoHouse) == G.NoHouse)
            && (r.Ok? ==> r.value == l.(houses := l.houses[(id, wallet) := house]))
  {
  }

  /** The leaf of whoever stands at a drawn rank. */
  function LeafAt(s: Sort, k: HouseKey, rank: uint32, identity: Hash, wallet: Address): Leaf
    requires BooksShaped(s) && k in s.configs && rank as nat < |s.draws[k]|
  {
    TracedInRange(s, k, rank);
    Leaf(Trace(s.draws[k], rank as nat, s.draws[k][rank]) as uint32, identity, wallet)
  }

  lemma TracedInRange(s: Sort, k: HouseKey, rank: uint32)
    requires BooksShaped(s) && k in s.configs && rank as nat < |s.draws[k]|
    ensures RankedList(s, k)[rank] == Trace(s.draws[k], rank as nat, s.draws[k][rank]) < s.configs[k].population as nat
  {
    var n := s.configs[k].population as nat;
    SelectionTraces(n, s.draws[k], rank as nat);
    SelectionIsDistinct(n, s.draws[k]);
  }

  lemma WhenAlternateIsActivated(o: Oracle, s: Sort, l: G.Ledger, now: uint64, id: nat, house: uint8, evidence: Hash)
    requires Shaped(s) && BooksShaped(s)
    ensures var (r, k) := (Apply(o, s, l, now, CallActivate(id, house, evidence)), HouseKey(id, house));
            && (r.Ok? <==>
                  && (house == 1 || house == 2) && id in s.rounds && evidence != 0 && s.rounds[id].claimDeadline < now
                  && s.limits[k] as int < s.configs[k].primarySeats as int + s.configs[k].alternateSeats as int
                  && s.limits[k] as nat < |s.draws[k]|)
            && (r.Ok? ==>
                  && r.value.1 == l && k in r.value.0.limits && r.value.0.limits[k] as int == s.limits[k] as int + 1
                  && r.value.0 == s.(limits := s.limits[k := r.value.0.limits[k]]))
  {
  }
}
