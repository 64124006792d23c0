/** Runs from the beginning that rank any wanted candidates: no ordered selection is out of reach. */
module SortitionExamples {
  import opened Common
  import opened FisherYates
  import opened System
  import G = GovernorRules
  import S = SortitionRules

  /** What is reached stays reached one event later. */
  lemma ReachesOn(c: Chain, w: World, now: uint64, e: Event)
    requires Reachable(c, w, now) && Shaped(w) && now <= e.now
    ensures Reachable(c, Step(c, w, e), e.now)
  {
    hide Step, Shaped;
    var start, events :| Chronological(start, events) && w == Run(c, GENESIS, events) && now == Clock(start, events);
    var events' := events + [e];
    assert events'[..|events|] == events;
    forall i | 0 <= i < |events'| ensures start <= events'[i].now && (i > 0 ==> events'[i - 1].now <= events'[i].now) {
      if i == |events| {
        if i == 0 { assert now == start; } else { assert events[i - 1].now == now && start <= events[i - 1].now; }
      }
    }
    assert Chronological(start, events') && Step(c, w, e) == Run(c, GENESIS, events') && e.now == Clock(start, events');
  }

  // One session with one round in which both Houses seat as many as wanted out of n candidates

  const SESSION := G.Session(1, 100, 200, 1, 1, 1)

  function Opening(n: uint32, seats: uint32): S.Call {
    S.CallCreateRound(1, 1, 1, 10, 20, S.HouseConfig(1, n, seats, 0), S.HouseConfig(1, n, seats, 0))
  }

  /** The world with that round, in the given state, and the Houses' draws. */
  function Drawing(n: uint32, seats: uint32, round: S.Round, creators: seq<nat>, users: seq<nat>): World {
    var (ck, uk, config) := (S.HouseKey(1, 1), S.HouseKey(1, 2), S.HouseConfig(1, n, seats, 0));
    World(G.DEPLOYED.(ledger := G.DEPLOYED.ledger.(sessionCount := 1, sessions := map[1 := SESSION])),
          S.Sort(map[1 := round], map[ck := config, uk := config], map[ck := creators, uk := users],
                 map[ck := seats, uk := seats], map[1 := 1], map[]), None)
  }

  const OPENED := S.Round(1, 1, 10, 20, 0, false, 1, 0)

  lemma SessionReached(c: Chain)
    requires G.Configured(c.cfg)
    ensures Reachable(c, GENESIS.(gov := G.DEPLOYED.(ledger := G.DEPLOYED.ledger.(sessionCount := 1, sessions := map[1 := SESSION]))), 1)
  {
    var none: seq<Event> := [];
    assert Chronological(1, none) && Run(c, GENESIS, none) == GENESIS && Clock(1, none) == 1;
    ReachesOn(c, GENESIS, 1, Event(1, OnGovernor(G.CallCreateSession(SESSION))));
  }

  lemma RoundReached(c: Chain, n: uint32, seats: uint32)
    requires G.Configured(c.cfg) && 0 < seats <= n
    ensures Reachable(c, Drawing(n, seats, OPENED, [], []), 1)
  {
    hide Reachable;
    SessionReached(c);
    var w := GENESIS.(gov := G.DEPLOYED.(ledger := G.DEPLOYED.ledger.(sessionCount := 1, sessions := map[1 := SESSION])));
    ReachesOn(c, w, 1, Event(1, OnSortition(Opening(n, seats))));
    assert Step(c, w, Event(1, OnSortition(Opening(n, seats)))).sort == Drawing(n, seats, OPENED, [], []).sort;
  }

  function Fulfilled(word: nat): S.Round { S.Round(1, 1, 10, 20, word, true, 1, 10) }

  lemma WordReached(c: Chain, n: uint32, seats: uint32, word: nat)
    requires G.Configured(c.cfg) && 0 < seats <= n && word != 0
    ensures Reachable(c, Drawing(n, seats, Fulfilled(word), [], []), 10)
  {
    hide Reachable, G.Configured;
    RoundReached(c, n, seats);
    var w := Drawing(n, seats, OPENED, [], []);
    ReachesOn(c, w, 1, Event(10, OnSortition(S.CallFulfill(1, word))));
    assert Step(c, w, Event(10, OnSortition(S.CallFulfill(1, word)))).sort == Drawing(n, seats, Fulfilled(word), [], []).sort;
  }

  /** The draws of one House after m finalizations, the other House having drawn nothing. */
  function Drawn(c: Chain, n: uint32, seats: uint32, house: uint8, word: nat, m: nat): World
    requires m <= n as nat
  {
    var draws := S.Draws(c.oracle, word, S.HouseKey(1, house), n as nat, m);
    Drawing(n, seats, Fulfilled(word), if house == 1 then draws else [], if house == 2 then draws else [])
  }

  lemma NothingDrawn(c: Chain, n: uint32, seats: uint32, house: uint8, word: nat)
    ensures Drawn(c, n, seats, house, word, 0) == Drawing(n, seats, Fulfilled(word), [], [])
  {
    assert S.Draws(c.oracle, word, S.HouseKey(1, house), n as nat, 0) == [];
  }

  lemma {:induction false} DrawsReached(c: Chain, n: uint32, seats: uint32, house: uint8, word: nat, m: nat)
    requires G.Configured(c.cfg) && 0 < seats <= n && word != 0 && (house == 1 || house == 2) && m <= seats as nat
    ensures Reachable(c, Drawn(c, n, seats, house, word, m), 10)
  {
    hide Reachable, S.Draws, S.DrawAt, Drawn, Shaped, Step, G.Configured;
    if m == 0 {
      WordReached(c, n, seats, word);
      NothingDrawn(c, n, seats, house, word);
    } else {
      DrawsReached(c, n, seats, house, word, m - 1);
      NextDraw(c, n, seats, house, word, m - 1);
      ReachesOn(c, Drawn(c, n, seats, house, word, m - 1), 10, Event(10, OnSortition(S.CallFinalizeNext(1, house))));
    }
  }

  lemma DrawnInShape(c: Chain, n: uint32, seats: uint32, house: uint8, word: nat, m: nat)
    requires 0 < seats <= n && (house == 1 || house == 2) && m <= seats as nat
    ensures Shaped(Drawn(c, n, seats, house, word, m))
  {
    hide S.Draws;
  }

  lemma NextSelection(c: Chain, n: uint32, seats: uint32, house: uint8, word: nat, m: nat)
    requires 0 < seats <= n && (house == 1 || house == 2) && m < seats as nat
    requires Shaped(Drawn(c, n, seats, house, word, m))
    ensures S.FinalizeNextSelection(c.oracle, Drawn(c, n, seats, house, word, m).sort, 1, house)
            == Ok(Drawn(c, n, seats, house, word, m + 1).sort)
  {
    hide S.DrawAt, Shaped;
    var k := S.HouseKey(1, house);
    assert S.Draws(c.oracle, word, k, n as nat, m + 1)
      == S.Draws(c.oracle, word, k, n as nat, m) + [S.DrawAt(c.oracle, word, k, n as nat, m)];
    hide S.Draws;
    var s, s' := Drawn(c, n, seats, house, word, m).sort, Drawn(c, n, seats, house, word, m + 1).sort;
    assert s'.draws == s.draws[k := s.draws[k] + [S.DrawAt(c.oracle, word, k, n as nat, m)]];
  }

  lemma NextDraw(c: Chain, n: uint32, seats: uint32, house: uint8, word: nat, m: nat)
    requires 0 < seats <= n && (house == 1 || house == 2) && m < seats as nat
    ensures Shaped(Drawn(c, n, seats, house, word, m))
    ensures Step(c, Drawn(c, n, seats, house, word, m), Event(10, OnSortition(S.CallFinalizeNext(1, house))))
            == Drawn(c, n, seats, house, word, m + 1)
  {
    hide S.FinalizeNextSelection, S.Draws, Shaped;
    DrawnInShape(c, n, seats, house, word, m);
    NextSelection(c, n, seats, house, word, m);
  }

  /**
   Whatever ordered selection of candidates one wishes for, there are keccak values under which some run ends with
   exactly this list, and every run with that word and population agrees with it.
   */
  lemma EveryListIsReached(cfg: G.Config, proves: (seq<Hash>, Hash, S.Leaf) -> bool, house: uint8, word: nat, n: uint32, list: seq<nat>)
    requires G.Configured(cfg) && (house == 1 || house == 2) && word != 0 && list != [] && OrderedSelection(n as nat, list)
    ensures exists o: S.Oracle, w, now ::
      && o.proves == proves && AlwaysRanks(Chain(cfg, o), S.HouseKey(1, house), word, n as nat, list)
      && Reachable(Chain(cfg, o), w, now) && Lists(w, S.HouseKey(1, house), word, n, list)
  {
    hide Reachable, S.Draws;
    var k, o := S.HouseKey(1, house), OracleFor(proves, DrawsFor(n as nat, list));
    EveryListIsPossible(cfg, proves, k, word, n as nat, list);
    WantedDraws(o, proves, k, word, n as nat, list);
    var seats := |list| as uint32;
    DrawsReached(Chain(cfg, o), n, seats, house, word, |list|);
    ListsWanted(Chain(cfg, o), n, seats, house, word, list);
  }

  /** That House's list is exactly this one. */
  ghost predicate Lists(w: World, k: S.HouseKey, word: nat, n: uint32, list: seq<nat>) {
    && Shaped(w) && k in w.sort.configs && k.sessionId in w.sort.rounds
    && w.sort.configs[k].population == n && w.sort.rounds[k.sessionId].word == word && S.RankedList(w.sort, k) == list
  }

  lemma ListsWanted(c: Chain, n: uint32, seats: uint32, house: uint8, word: nat, list: seq<nat>)
    requires (house == 1 || house == 2) && OrderedSelection(n as nat, list) && 0 < seats as nat == |list| <= n as nat
    requires S.Draws(c.oracle, word, S.HouseKey(1, house), n as nat, |list|) == DrawsFor(n as nat, list)
    ensures Lists(Drawn(c, n, seats, house, word, |list|), S.HouseKey(1, house), word, n, list)
  {
    hide S.Draws, DrawsFor;
  }
}
