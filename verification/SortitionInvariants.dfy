/** What every sortition call keeps: reproducible lists, the timeline, and one seat per person. */
module SortitionInvariants {
  import opened Common
  import opened FisherYates
  import opened SortitionRules
  import G = GovernorRules

  /** Eligibility is fixed before it closes and randomness arrives between close and claim deadline. */
  ghost predicate RoundOk(s: Sort, l: G.Ledger, id: nat, now: uint64) {
    && id in s.rounds && id in l.sessions
    && var r := s.rounds[id];
    && r.snapshotHash != 0 && r.requestId != 0
    && r.createdAt <= now && r.createdAt < r.closesAt < r.claimDeadline < l.sessions[id].startsAt
    && r.requestId in s.requests && s.requests[r.requestId] == id
    && (r.fulfilled ==> r.word != 0 && r.closesAt <= r.fulfilledAt < r.claimDeadline && r.fulfilledAt <= now)
  }

  /** A House's list so far is a prefix of its ranking, and alternates open only after the deadline. */
  ghost predicate BookOk(o: Oracle, s: Sort, k: HouseKey, now: uint64)
    requires k in s.configs && k in s.draws && k in s.limits && k.sessionId in s.rounds
  {
    var c, draws, limit, r := s.configs[k], s.draws[k], s.limits[k], s.rounds[k.sessionId];
    && BookShaped(c, draws) && c.root != 0
    && draws == Draws(o, r.word, k, c.population as nat, |draws|)
    && (draws != [] ==> r.fulfilled)
    && c.primarySeats <= limit && limit as nat <= Seats(c)
    && (limit > c.primarySeats ==> now > r.claimDeadline && limit as nat <= |draws|)
  }

  /** The holder of a seat is the proven owner of the drawn leaf and a member of that House. */
  ghost predicate SeatOk(o: Oracle, s: Sort, l: G.Ledger, k: HouseKey, rank: uint32)
    requires (k, rank) in s.seats && k in s.configs && k in s.draws && k in s.limits && k.sessionId in s.rounds
    requires k.sessionId in l.sessions && BooksShaped(s)
  {
    var seat, c, r := s.seats[(k, rank)], s.configs[k], s.rounds[k.sessionId];
    && rank < s.limits[k] && rank as nat < |s.draws[k]|
    && seat.leaf.index as nat == RankedList(s, k)[rank]
    && o.proves(seat.proof, c.root, seat.leaf)
    && seat.leaf.wallet != 0 && seat.leaf.identity != 0 && seat.caller == seat.leaf.wallet
    && (k.sessionId, seat.leaf.wallet) in l.houses
    && l.houses[(k.sessionId, seat.leaf.wallet)] == GovernorHouse(k.house)
    && seat.at < l.sessions[k.sessionId].startsAt
    && (if rank < c.primarySeats then seat.at <= r.claimDeadline else seat.at > r.claimDeadline)
  }

  /** Per session no governance identity and no wallet holds two seats, across both Houses. */
  ghost predicate SeatsDistinct(s: Sort) {
    forall a, b :: a in s.seats && b in s.seats && a != b && a.0.sessionId == b.0.sessionId ==>
      s.seats[a].leaf.identity != s.seats[b].leaf.identity && s.seats[a].leaf.wallet != s.seats[b].leaf.wallet
  }

  ghost predicate BooksOk(o: Oracle, s: Sort, now: uint64) {
    && Shaped(s) && BooksShaped(s)
    && forall k :: k in s.configs ==> BookOk(o, s, k, now)
  }

  ghost predicate SeatsOk(o: Oracle, s: Sort, l: G.Ledger)
    requires BooksShaped(s) && Shaped(s) && RoundsIn(s, l)
  {
    && (forall k :: k in s.seats ==> k.0 in s.configs && SeatOk(o, s, l, k.0, k.1))
    && SeatsDistinct(s)
  }

  ghost predicate RoundsIn(s: Sort, l: G.Ledger) {
    forall id :: id in s.rounds ==> id in l.sessions
  }

  ghost predicate SortOk(o: Oracle, s: Sort, l: G.Ledger, now: uint64) {
    && (forall id :: id in s.rounds ==> RoundOk(s, l, id, now))
    && (forall q :: q in s.requests ==> s.requests[q] in s.rounds && s.rounds[s.requests[q]].requestId == q)
    && BooksOk(o, s, now)
    && RoundsIn(s, l)
    && SeatsOk(o, s, l)
  }

  // What is never undone

  predicate RoundLater(r: Round, r': Round) {
    && r' == r.(word := r'.word, fulfilled := r'.fulfilled, fulfilledAt := r'.fulfilledAt)
    && (r.fulfilled ==> r' == r)
  }

  /** Configurations, randomness, drawn ranks and seats are never rewritten. */
  ghost predicate SortLater(s: Sort, s': Sort) {
    && (forall id :: id in s.rounds ==> id in s'.rounds && RoundLater(s.rounds[id], s'.rounds[id]))
    && (forall k :: k in s.configs ==> k in s'.configs && s'.configs[k] == s.configs[k])
    && (forall k :: k in s.draws ==> k in s'.draws && s.draws[k] <= s'.draws[k])
    && (forall k :: k in s.limits ==> k in s'.limits && s.limits[k] <= s'.limits[k])
    && (forall q :: q in s.requests ==> q in s'.requests && s'.requests[q] == s.requests[q])
    && (forall k :: k in s.seats ==> k in s'.seats && s'.seats[k] == s.seats[k])
  }

  /** What the sortition reads from the governor only ever grows. */
  ghost predicate LedgerGrows(l: G.Ledger, l': G.Ledger) {
    && (forall id :: id in l.sessions ==> id in l'.sessions && l'.sessions[id] == l.sessions[id])
    && (forall k :: k in l.houses && l.houses[k] != G.NoHouse ==> k in l'.houses && l'.houses[k] == l.houses[k])
  }

  lemma SortLaterTransitive(a: Sort, b: Sort, c: Sort)
    requires SortLater(a, b) && SortLater(b, c)
    ensures SortLater(a, c)
  {
  }

  lemma CreateRoundMovesOn(s: Sort, s': Sort, l: G.Ledger, now: uint64, call: Call)
    requires Shaped(s) && BooksShaped(s) && call.CallCreateRound?
    requires CreateRound(s, l, now, call.id, call.snapshotHash, call.requestId, call.closesAt, call.claimDeadline,
                         call.creator, call.user) == Ok(s')
    ensures SortLater(s, s') && Shaped(s') && BooksShaped(s')
  {
    hide Shaped, BooksShaped, SortLater, Feasible;
    NewRoundIsLater(s, s', l, now, call);
    NewRoundShaped(s, s', l, now, call);
    NewRoundBooksShaped(s, s', l, now, call);
  }

  lemma NewRoundShaped(s: Sort, s': Sort, l: G.Ledger, now: uint64, call: Call)
    requires Shaped(s) && call.CallCreateRound?
    requires CreateRound(s, l, now, call.id, call.snapshotHash, call.requestId, call.closesAt, call.claimDeadline,
                         call.creator, call.user) == Ok(s')
    ensures Shaped(s')
  {
  }

  lemma NewRoundBooksShaped(s: Sort, s': Sort, l: G.Ledger, now: uint64, call: Call)
    requires BooksShaped(s) && call.CallCreateRound?
    requires CreateRound(s, l, now, call.id, call.snapshotHash, call.requestId, call.closesAt, call.claimDeadline,
                         call.creator, call.user) == Ok(s')
    ensures BooksShaped(s')
  {
    hide BookShaped;
    EmptyBooks(call.creator, call.user);
    hide Feasible;
  }

  lemma NewRoundIsLater(s: Sort, s': Sort, l: G.Ledger, now: uint64, call: Call)
    requires Shaped(s) && BooksShaped(s) && call.CallCreateRound?
    requires CreateRound(s, l, now, call.id, call.snapshotHash, call.requestId, call.closesAt, call.claimDeadline,
                         call.creator, call.user) == Ok(s')
    ensures SortLater(s, s')
  {
    hide BookShaped;
    var ck, uk := HouseKey(call.id, CREATOR_HOUSE), HouseKey(call.id, USER_HOUSE);
    AddedTwo(s.configs, ck, call.creator, uk, call.user);
    AddedTwo(s.draws, ck, [], uk, []);
    AddedTwo(s.limits, ck, call.creator.primarySeats, uk, call.user.primarySeats);
    hide Shaped, BooksShaped, Feasible;
  }

  lemma AddedTwo<K, V>(m: map<K, V>, a: K, x: V, b: K, y: V)
    requires a !in m && b !in m
    ensures forall k :: k in m ==> k in m[a := x][b := y] && m[a := x][b := y][k] == m[k]
  {
  }

  lemma FulfillMovesOn(s: Sort, s': Sort, now: uint64, requestId: Hash, word: nat)
    requires Shaped(s) && BooksShaped(s) && FulfillRandomness(s, now, requestId, word) == Ok(s')
    ensures SortLater(s, s') && Shaped(s') && BooksShaped(s')
  {
  }

  lemma FinalizeMovesOn(o: Oracle, s: Sort, s': Sort, id: nat, house: uint8)
    requires Shaped(s) && BooksShaped(s) && FinalizeNextSelection(o, s, id, house) == Ok(s')
    ensures SortLater(s, s') && Shaped(s') && BooksShaped(s')
  {
    var k := HouseKey(id, house);
    hide BookShaped, DrawAt;
    assert BookShaped(s.configs[k], s'.draws[k]) by { DrawStaysShaped(o, s, k, s.rounds[id].word); }
  }

  lemma ClaimMovesOn(o: Oracle, s: Sort, s': Sort, l: G.Ledger, l': G.Ledger, now: uint64, call: Call)
    requires Shaped(s) && BooksShaped(s) && call.CallClaim?
    requires ClaimSeat(o, s, l, now, call.sender, call.id, call.house, call.rank, call.identity, call.wallet,
                       call.proof) == Ok((s', l'))
    ensures SortLater(s, s') && Shaped(s') && BooksShaped(s') && LedgerGrows(l, l')
  {
    hide BookShaped;
  }

  lemma ActivateMovesOn(s: Sort, s': Sort, now: uint64, id: nat, house: uint8, evidence: Hash)
    requires Shaped(s) && BooksShaped(s) && ActivateNextAlternate(s, now, id, house, evidence) == Ok(s')
    ensures SortLater(s, s') && Shaped(s') && BooksShaped(s')
  {
  }

  lemma ApplyMovesOn(o: Oracle, s: Sort, s': Sort, l: G.Ledger, l': G.Ledger, now: uint64, call: Call)
    requires Shaped(s) && BooksShaped(s) && Apply(o, s, l, now, call) == Ok((s', l'))
    ensures SortLater(s, s')
  {
    hide Shaped, BooksShaped, SortLater, LedgerGrows;
    match call
    case CallCreateRound(_, _, _, _, _, _, _) => CreateRoundMovesOn(s, s', l, now, call);
    case CallFulfill(requestId, word) => FulfillMovesOn(s, s', now, requestId, word);
    case CallFinalizeNext(id, house) => FinalizeMovesOn(o, s, s', id, house);
    case CallClaim(_, _, _, _, _, _, _) => ClaimMovesOn(o, s, s', l, l', now, call);
    case CallActivate(id, house, evidence) => ActivateMovesOn(s, s', now, id, house, evidence);
  }

  // What stays true of each round, book and seat

  lemma LedgerStays(l: G.Ledger)
    ensures LedgerGrows(l, l)
  {
  }

  lemma RoundPersists(s: Sort, s': Sort, l: G.Ledger, l': G.Ledger, id: nat, before: uint64, now: uint64)
    requires RoundOk(s, l, id, before) && before <= now && SortLater(s, s') && LedgerGrows(l, l')
    requires s'.rounds[id] == s.rounds[id]
    ensures RoundOk(s', l', id, now)
  {
  }

  /** A book survives until it is drawn from or its limit moves. */
  lemma BookPersists(o: Oracle, s: Sort, s': Sort, k: HouseKey, before: uint64, now: uint64)
    requires k in s.configs && k in s.draws && k in s.limits && k.sessionId in s.rounds
    requires BookOk(o, s, k, before) && before <= now && SortLater(s, s')
    requires s'.draws[k] == s.draws[k] && s'.limits[k] == s.limits[k]
    ensures BookOk(o, s', k, now)
  {
  }

  /** A seat survives everything: lists, limits and memberships only grow. */
  lemma SeatPersists(o: Oracle, s: Sort, s': Sort, l: G.Ledger, l': G.Ledger, k: HouseKey, rank: uint32)
    requires Shaped(s) && BooksShaped(s) && BooksShaped(s') && RoundsIn(s, l)
    requires (k, rank) in s.seats && k in s.configs && SeatOk(o, s, l, k, rank)
    requires SortLater(s, s') && LedgerGrows(l, l')
    ensures SeatOk(o, s', l', k, rank)
  {
    SelectionPrefix(s.configs[k].population as nat, s'.draws[k], |s.draws[k]|);
    assert s'.draws[k][..|s.draws[k]|] == s.draws[k];
    assert RankedList(s', k)[rank] == RankedList(s, k)[rank];
  }

  lemma ConfigsPersist(s: Sort, s': Sort)
    requires SortLater(s, s')
    ensures forall k :: k in s.configs ==> k in s'.configs
  {
  }

  lemma AllSeatsPersist(o: Oracle, s: Sort, s': Sort, l: G.Ledger, l': G.Ledger)
    requires Shaped(s) && BooksShaped(s) && RoundsIn(s, l) && SeatsOk(o, s, l)
    requires Shaped(s') && BooksShaped(s') && RoundsIn(s', l')
    requires SortLater(s, s') && LedgerGrows(l, l') && s'.seats == s.seats
    ensures SeatsOk(o, s', l')
  {
    hide SeatOk, BookShaped, SortLater, LedgerGrows;
    assert forall k :: k in s.seats ==> k.0 in s'.configs by { ConfigsPersist(s, s'); }
    forall k | k in s'.seats ensures k.0 in s'.configs && SeatOk(o, s', l', k.0, k.1) {
      SeatPersists(o, s, s', l, l', k.0, k.1);
    }
  }

  lemma DeployedOk(o: Oracle, l: G.Ledger, now: uint64)
    ensures SortOk(o, DEPLOYED, l, now)
  {
  }

  /** Governor activity and the passing of time never disturb the sortition. */
  lemma WorldMovesOn(o: Oracle, s: Sort, l: G.Ledger, l': G.Ledger, before: uint64, now: uint64)
    requires SortOk(o, s, l, before) && LedgerGrows(l, l') && before <= now
    ensures SortOk(o, s, l', now)
  {
    hide RoundOk, BookOk, SeatsOk;
    forall id | id in s.rounds ensures RoundOk(s, l', id, now) {
      RoundPersists(s, s, l, l', id, before, now);
    }
    forall k | k in s.configs ensures BookOk(o, s, k, now) {
      BookPersists(o, s, s, k, before, now);
    }
    AllSeatsPersist(o, s, s, l, l');
  }

  lemma ClockMovesOn(o: Oracle, s: Sort, l: G.Ledger, before: uint64, now: uint64)
    requires SortOk(o, s, l, before) && before <= now
    ensures SortOk(o, s, l, now)
  {
    hide SortOk;
    WorldMovesOn(o, s, l, l, before, now);
  }

  /** A call that leaves the rounds alone leaves them in order. */
  lemma RoundsPersist(o: Oracle, s: Sort, s': Sort, l: G.Ledger, l': G.Ledger, now: uint64)
    requires SortOk(o, s, l, now) && SortLater(s, s') && LedgerGrows(l, l')
    requires s'.rounds == s.rounds && s'.requests == s.requests
    ensures forall id :: id in s'.rounds ==> RoundOk(s', l', id, now)
    ensures RoundsIn(s', l')
  {
    hide RoundOk, BooksOk, SeatsOk;
    forall id | id in s'.rounds ensures RoundOk(s', l', id, now) && id in l'.sessions {
      RoundPersists(s, s', l, l', id, now, now);
    }
  }

  lemma CreateRoundKeeps(o: Oracle, s: Sort, s': Sort, l: G.Ledger, now: uint64, call: Call)
    requires SortOk(o, s, l, now) && call.CallCreateRound?
    requires CreateRound(s, l, now, call.id, call.snapshotHash, call.requestId, call.closesAt, call.claimDeadline,
                         call.creator, call.user) == Ok(s')
    ensures SortOk(o, s', l, now)
  {
    hide BookShaped, SeatsOk, SortLater, Shaped, BooksShaped, RoundOk, BookOk;
    CreateRoundMovesOn(s, s', l, now, call);
    forall id | id in s'.rounds ensures RoundOk(s', l, id, now) {
      NewRoundRounds(s, s', l, now, call, id);
    }
    forall k | k in s'.configs
      ensures k in s'.draws && k in s'.limits && k.sessionId in s'.rounds && BookOk(o, s', k, now)
    {
      NewRoundBooks(o, s, s', l, now, call, k);
    }
    AllSeatsPersist(o, s, s', l, l);
  }

  lemma NewRoundRounds(s: Sort, s': Sort, l: G.Ledger, now: uint64, call: Call, id: nat)
    requires call.CallCreateRound? && id in s'.rounds && SortLater(s, s')
    requires CreateRound(s, l, now, call.id, call.snapshotHash, call.requestId, call.closesAt, call.claimDeadline,
                         call.creator, call.user) == Ok(s')
    requires id in s.rounds ==> RoundOk(s, l, id, now)
    ensures RoundOk(s', l, id, now)
  {
  }

  lemma NewRoundBooks(o: Oracle, s: Sort, s': Sort, l: G.Ledger, now: uint64, call: Call, k: HouseKey)
    requires call.CallCreateRound? && k in s'.configs && SortLater(s, s')
    requires CreateRound(s, l, now, call.id, call.snapshotHash, call.requestId, call.closesAt, call.claimDeadline,
                         call.creator, call.user) == Ok(s')
    requires Shaped(s) && BooksShaped(s) && (k in s.configs ==> BookOk(o, s, k, now))
    ensures k in s'.draws && k in s'.limits && k.sessionId in s'.rounds && BookOk(o, s', k, now)
  {
    hide SortLater;
    if k in s.configs { BookPersists(o, s, s', k, now, now); }
  }

  lemma FulfillKeeps(o: Oracle, s: Sort, s': Sort, l: G.Ledger, now: uint64, requestId: Hash, word: nat)
    requires SortOk(o, s, l, now) && FulfillRandomness(s, now, requestId, word) == Ok(s')
    ensures SortOk(o, s', l, now)
  {
    hide BookOk, SeatsOk, SortLater, RoundOk;
    FulfillMovesOn(s, s', now, requestId, word);
    var filled := Read(s.requests, requestId, 0);
    forall id | id in s'.rounds ensures RoundOk(s', l, id, now) {
      if id == filled { FilledRound(s, s', l, now, requestId, word); }
      else { RoundPersists(s, s', l, l, id, now, now); }
    }
    forall k | k in s'.configs ensures BookOk(o, s', k, now) {
      BookPersists(o, s, s', k, now, now);
    }
    AllSeatsPersist(o, s, s', l, l);
  }

  lemma FilledRound(s: Sort, s': Sort, l: G.Ledger, now: uint64, requestId: Hash, word: nat)
    requires RoundOk(s, l, Read(s.requests, requestId, 0), now)
    requires FulfillRandomness(s, now, requestId, word) == Ok(s')
    ensures RoundOk(s', l, Read(s.requests, requestId, 0), now)
  {
  }

  lemma FinalizeKeeps(o: Oracle, s: Sort, s': Sort, l: G.Ledger, now: uint64, id: nat, house: uint8)
    requires SortOk(o, s, l, now) && FinalizeNextSelection(o, s, id, house) == Ok(s')
    ensures SortOk(o, s', l, now)
  {
    hide BookOk, SeatsOk, SortLater, RoundOk, LedgerGrows, BookShaped, DrawAt, RoundsIn;
    FinalizeMovesOn(o, s, s', id, house);
    LedgerStays(l);
    RoundsPersist(o, s, s', l, l, now);
    forall k | k in s'.configs ensures BookOk(o, s', k, now) {
      if k == HouseKey(id, house) { DrawnBook(o, s, s', now, id, house); }
      else { BookPersists(o, s, s', k, now, now); }
    }
    AllSeatsPersist(o, s, s', l, l);
  }

  lemma DrawnBook(o: Oracle, s: Sort, s': Sort, now: uint64, id: nat, house: uint8)
    requires Shaped(s) && BooksShaped(s) && FinalizeNextSelection(o, s, id, house) == Ok(s')
    requires BookOk(o, s, HouseKey(id, house), now)
    ensures BookOk(o, s', HouseKey(id, house), now)
  {
  }

  lemma ActivateKeeps(o: Oracle, s: Sort, s': Sort, l: G.Ledger, now: uint64, id: nat, house: uint8, evidence: Hash)
    requires SortOk(o, s, l, now) && ActivateNextAlternate(s, now, id, house, evidence) == Ok(s')
    ensures SortOk(o, s', l, now)
  {
    hide BookOk, SeatsOk, SortLater, RoundOk, LedgerGrows, BookShaped, RoundsIn;
    ActivateMovesOn(s, s', now, id, house, evidence);
    LedgerStays(l);
    RoundsPersist(o, s, s', l, l, now);
    forall k | k in s'.configs ensures BookOk(o, s', k, now) {
      if k == HouseKey(id, house) { WidenedBook(o, s, s', now, id, house, evidence); }
      else { BookPersists(o, s, s', k, now, now); }
    }
    AllSeatsPersist(o, s, s', l, l);
  }

  lemma WidenedBook(o: Oracle, s: Sort, s': Sort, now: uint64, id: nat, house: uint8, evidence: Hash)
    requires Shaped(s) && BooksShaped(s) && ActivateNextAlternate(s, now, id, house, evidence) == Ok(s')
    requires BookOk(o, s, HouseKey(id, house), now)
    ensures BookOk(o, s', HouseKey(id, house), now)
  {
  }

  /** A wallet that already holds a seat of the session is rejected by the governor. */
  lemma ClaimIsByNewcomer(o: Oracle, s: Sort, l: G.Ledger, now: uint64, id: nat, house: uint8, wallet: Address)
    requires SortOk(o, s, l, now) && IsHouse(house) && id in s.rounds
    requires G.RegisterMember(l, now, id, wallet, GovernorHouse(house)).Ok?
    ensures forall k :: k in s.seats && k.0.sessionId == id ==> s.seats[k].leaf.wallet != wallet
  {
    hide BookOk, RoundOk, BookShaped, SeatsDistinct;
    forall k | k in s.seats && k.0.sessionId == id ensures s.seats[k].leaf.wallet != wallet {
      assert SeatOk(o, s, l, k.0, k.1);
    }
  }

  lemma ClaimedSeat(o: Oracle, s: Sort, s': Sort, l: G.Ledger, l': G.Ledger, now: uint64, call: Call)
    requires Shaped(s) && BooksShaped(s) && BooksShaped(s') && call.CallClaim?
    requires ClaimSeat(o, s, l, now, call.sender, call.id, call.house, call.rank, call.identity, call.wallet,
                       call.proof) == Ok((s', l'))
    requires BookOk(o, s, HouseKey(call.id, call.house), now)
    ensures SeatOk(o, s', l', HouseKey(call.id, call.house), call.rank)
  {
    PositionInverts(s.configs[HouseKey(call.id, call.house)].population as nat, s.draws[HouseKey(call.id, call.house)]);
  }

  lemma ClaimStaysDistinct(o: Oracle, s: Sort, s': Sort, l: G.Ledger, l': G.Ledger, now: uint64, call: Call)
    requires SortOk(o, s, l, now) && call.CallClaim?
    requires ClaimSeat(o, s, l, now, call.sender, call.id, call.house, call.rank, call.identity, call.wallet,
                       call.proof) == Ok((s', l'))
    ensures SeatsDistinct(s')
  {
    hide BookOk, SeatOk, RoundOk, BookShaped;
    ClaimIsByNewcomer(o, s, l, now, call.id, call.house, call.wallet);
    forall k | k in s.seats && k.0.sessionId == call.id
      ensures s.seats[k].leaf.identity != call.identity && s.seats[k].leaf.wallet != call.wallet
    {
    }
  }

  lemma ClaimKeepsSeats(o: Oracle, s: Sort, s': Sort, l: G.Ledger, l': G.Ledger, now: uint64, call: Call)
    requires SortOk(o, s, l, now) && call.CallClaim? && Shaped(s') && BooksShaped(s') && RoundsIn(s', l')
    requires ClaimSeat(o, s, l, now, call.sender, call.id, call.house, call.rank, call.identity, call.wallet,
                       call.proof) == Ok((s', l'))
    requires SortLater(s, s') && LedgerGrows(l, l')
    ensures SeatsOk(o, s', l')
  {
    hide SeatOk, SeatsDistinct, BookOk, RoundOk, SortLater, BookShaped;
    var key := (HouseKey(call.id, call.house), call.rank);
    forall k | k in s'.seats ensures k.0 in s'.configs && SeatOk(o, s', l', k.0, k.1) {
      if k == key { ClaimedSeat(o, s, s', l, l', now, call); }
      else { SeatPersists(o, s, s', l, l', k.0, k.1); }
    }
    ClaimStaysDistinct(o, s, s', l, l', now, call);
  }

  lemma ClaimKeeps(o: Oracle, s: Sort, s': Sort, l: G.Ledger, l': G.Ledger, now: uint64, call: Call)
    requires SortOk(o, s, l, now) && call.CallClaim?
    requires ClaimSeat(o, s, l, now, call.sender, call.id, call.house, call.rank, call.identity, call.wallet,
                       call.proof) == Ok((s', l'))
    ensures SortOk(o, s', l', now) && LedgerGrows(l, l')
  {
    hide BookOk, SeatsOk, SortLater, RoundOk, LedgerGrows, BookShaped, RoundsIn;
    hide G.RegisterMember, IdentityUsed;
    ClaimMovesOn(o, s, s', l, l', now, call);
    RoundsPersist(o, s, s', l, l', now);
    forall k | k in s'.configs ensures BookOk(o, s', k, now) {
      BookPersists(o, s, s', k, now, now);
    }
    ClaimKeepsSeats(o, s, s', l, l', now, call);
  }

  /** Every accepted sortition call keeps every invariant. */
  lemma ApplyKeeps(o: Oracle, s: Sort, s': Sort, l: G.Ledger, l': G.Ledger, now: uint64, call: Call)
    requires SortOk(o, s, l, now) && Apply(o, s, l, now, call) == Ok((s', l'))
    ensures SortOk(o, s', l', now) && LedgerGrows(l, l')
  {
    hide SortOk;
    match call
    case CallCreateRound(_, _, _, _, _, _, _) => CreateRoundKeeps(o, s, s', l, now, call);
    case CallFulfill(requestId, word) => FulfillKeeps(o, s, s', l, now, requestId, word);
    case CallFinalizeNext(id, house) => FinalizeKeeps(o, s, s', l, now, id, house);
    case CallClaim(_, _, _, _, _, _, _) => ClaimKeeps(o, s, s', l, l', now, call);
    case CallActivate(id, house, evidence) => ActivateKeeps(o, s, s', l, now, id, house, evidence);
  }

  // What follows

  /** Whatever was interleaved, a House's list is the ranking of its round's random word. */
  lemma ListIsRanking(o: Oracle, s: Sort, l: G.Ledger, now: uint64, k: HouseKey)
    requires SortOk(o, s, l, now) && k in s.configs
    ensures RankedList(s, k)
            == Ranking(o, s.rounds[k.sessionId].word, k, s.configs[k].population as nat, |s.draws[k]|)
    ensures OrderedSelection(s.configs[k].population as nat, RankedList(s, k))
  {
    assert BookOk(o, s, k, now);
    SelectionIsDistinct(s.configs[k].population as nat, s.draws[k]);
  }

  /** So every entry is an entry of one list that depends on public inputs alone. */
  lemma RankEntry(o: Oracle, s: Sort, l: G.Ledger, now: uint64, k: HouseKey, rank: nat)
    requires SortOk(o, s, l, now) && k in s.configs && rank < |RankedList(s, k)|
    ensures var n := s.configs[k].population as nat;
            RankedList(s, k)[rank] == Ranking(o, s.rounds[k.sessionId].word, k, n, n)[rank]
  {
    hide SeatsOk, RoundOk;
    var n := s.configs[k].population as nat;
    ListIsRanking(o, s, l, now, k);
    RankingPrefix(o, s.rounds[k.sessionId].word, k, n, |s.draws[k]|, n);
  }

  /** Seats of one House: ranks below the active limit, so never more than the seats on offer. */
  function SeatedRanks(s: Sort, k: HouseKey): set<uint32> {
    set key | key in s.seats && key.0 == k :: key.1
  }

  lemma {:induction false} RanksBelow(ranks: set<uint32>, limit: nat)
    requires forall r :: r in ranks ==> r as nat < limit
    ensures |ranks| <= limit
    decreases limit
  {
    if limit == 0 {
      assert ranks == {};
    } else {
      var below := set r | r in ranks && r as nat != limit - 1;
      RanksBelow(below, limit - 1);
      assert ranks == below || exists r :: r in ranks && r as nat == limit - 1 && ranks == below + {r} by {
        if r :| r in ranks && r as nat == limit - 1 {
          assert ranks == below + {r};
        } else {
          assert ranks == below;
        }
      }
    }
  }

  lemma HouseNeverOverfull(o: Oracle, s: Sort, l: G.Ledger, now: uint64, k: HouseKey)
    requires SortOk(o, s, l, now) && k in s.configs
    ensures k in s.limits
    ensures |SeatedRanks(s, k)| <= s.limits[k] as nat <= Seats(s.configs[k]) <= s.configs[k].population as nat
  {
    forall r | r in SeatedRanks(s, k) ensures r < s.limits[k] {
      assert SeatOk(o, s, l, k, r);
    }
    RanksBelow(SeatedRanks(s, k), s.limits[k] as nat);
    assert BookOk(o, s, k, now);
  }

  /** Two different seats of a session have different people, and within a House different candidates. */
  lemma OneSeatPerPerson(o: Oracle, s: Sort, l: G.Ledger, now: uint64, a: (HouseKey, uint32), b: (HouseKey, uint32))
    requires SortOk(o, s, l, now) && a in s.seats && b in s.seats && a != b && a.0.sessionId == b.0.sessionId
    ensures s.seats[a].leaf.identity != s.seats[b].leaf.identity
    ensures s.seats[a].leaf.wallet != s.seats[b].leaf.wallet
    ensures a.0 == b.0 ==> s.seats[a].leaf.index != s.seats[b].leaf.index
  {
    assert SeatOk(o, s, l, a.0, a.1) && SeatOk(o, s, l, b.0, b.1);
    hide RoundOk, BookOk;
    if a.0 == b.0 {
      ListIsRanking(o, s, l, now, a.0);
    }
  }
}
