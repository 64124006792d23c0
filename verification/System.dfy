/**
 Both governance contracts on one chain. Anybody's calls come in any order, and while
 executeProposal is calling its target the target may call back in; if the target fails,
 everything since the call began is undone. Statements here are about every such run.
 */
module System {
  import opened Common
  import FiniteSums
  import FisherYates
  import G = GovernorRules
  import Recounts
  import GI = GovernorInvariants
  import GE = GovernorEffects
  import GH = GovernorHistory
  import S = SortitionRules
  import SI = SortitionInvariants

  /** saved is what a running executeProposal falls back to if its target fails. */
  datatype World = World(gov: G.Gov, sort: S.Sort, saved: Option<(G.Gov, S.Sort)>)

  const GENESIS := World(G.DEPLOYED, S.DEPLOYED, None)

  /** Return ends the target's call made by executeProposal. */
  datatype Call = OnGovernor(call: G.Call) | OnSortition(order: S.Call) | Return(success: bool)

  datatype Event = Event(now: uint64, call: Call)

  /** The choices made at deployment and the cryptography. */
  datatype Chain = Chain(cfg: G.Config, oracle: S.Oracle)

  ghost predicate Shaped(w: World) {
    && G.Shaped(w.gov) && S.Shaped(w.sort) && S.BooksShaped(w.sort)
  }

  ghost function GovernorStep(c: Chain, w: World, now: uint64, call: G.Call): World
    requires Shaped(w)
  {
    match G.Apply(c.cfg, w.gov, now, call)
    case Revert(_) => w
    case Ok(g) => w.(gov := g, saved := if call.CallBeginExecution? then Some((w.gov, w.sort)) else w.saved)
  }

  ghost function SortitionStep(c: Chain, w: World, now: uint64, call: S.Call): World
    requires Shaped(w)
  {
    match S.Apply(c.oracle, w.sort, w.gov.ledger, now, call)
    case Revert(_) => w
    case Ok((s, l)) => w.(gov := w.gov.(ledger := l), sort := s)
  }

  function ReturnStep(w: World, success: bool): World {
    if w.saved.None? then w
    else if success then World(w.gov.(entered := false), w.sort, None)
    else World(w.saved.value.0, w.saved.value.1, None)
  }

  /** A transaction that reverts leaves the world as it was. */
  ghost function Step(c: Chain, w: World, e: Event): World
    requires Shaped(w)
  {
    match e.call
    case OnGovernor(call) => GovernorStep(c, w, e.now, call)
    case OnSortition(order) => SortitionStep(c, w, e.now, order)
    case Return(success) => ReturnStep(w, success)
  }

  ghost predicate WorldOk(c: Chain, w: World, now: uint64) {
    && GI.GovOk(c.cfg, w.gov, now) && SI.SortOk(c.oracle, w.sort, w.gov.ledger, now)
    && (w.gov.entered <==> w.saved.Some?)
    && (w.saved.Some? ==>
          var (g, s) := w.saved.value;
          GI.GovOk(c.cfg, g, now) && SI.SortOk(c.oracle, s, g.ledger, now) && !g.entered)
  }

  lemma OkIsShaped(c: Chain, w: World, now: uint64)
    requires WorldOk(c, w, now)
    ensures Shaped(w)
  {
  }

  lemma GenesisOk(c: Chain, now: uint64)
    ensures WorldOk(c, GENESIS, now)
  {
    GI.DeployedOk(c.cfg, now);
    SI.DeployedOk(c.oracle, G.DEPLOYED.ledger, now);
  }

  lemma LedgerGrows(g: G.Gov, g': G.Gov, since: uint64)
    requires GH.GovLater(g, g', since)
    ensures SI.LedgerGrows(g.ledger, g'.ledger)
  {
  }

  lemma PairLater(c: Chain, g: G.Gov, s: S.Sort, before: uint64, now: uint64)
    requires GI.GovOk(c.cfg, g, before) && SI.SortOk(c.oracle, s, g.ledger, before) && before <= now
    ensures GI.GovOk(c.cfg, g, now) && SI.SortOk(c.oracle, s, g.ledger, now)
  {
    hide GI.GovOk, SI.SortOk;
    GI.LaterClock(c.cfg, g, before, now);
    SI.WorldMovesOn(c.oracle, s, g.ledger, g.ledger, before, now);
  }

  lemma WorldLater(c: Chain, w: World, before: uint64, now: uint64)
    requires WorldOk(c, w, before) && before <= now
    ensures WorldOk(c, w, now)
  {
    hide GI.GovOk, SI.SortOk;
    PairLater(c, w.gov, w.sort, before, now);
    if w.saved.Some? { PairLater(c, w.saved.value.0, w.saved.value.1, before, now); }
  }

  // One step

  /** A governor call leaves the sortition valid. */
  lemma GovernorStepKeeps(c: Chain, w: World, w': World, now: uint64, call: G.Call)
    requires WorldOk(c, w, now) && Shaped(w) && w' == GovernorStep(c, w, now, call)
    ensures WorldOk(c, w', now) && GH.GovLater(w.gov, w'.gov, now)
  {
    hide GI.GovOk, SI.SortOk, GH.GovLater, S.BooksShaped, SI.LedgerGrows;
    var r := G.Apply(c.cfg, w.gov, now, call);
    EnteredMoves(c.cfg, w.gov, now, call);
    if r.Ok? {
      GI.ApplyKeeps(c.cfg, w.gov, w'.gov, now, call);
      GH.ApplyMovesOn(c.cfg, w.gov, w'.gov, now, call);
      LedgerGrows(w.gov, w'.gov, now);
      SI.WorldMovesOn(c.oracle, w.sort, w.gov.ledger, w'.gov.ledger, now, now);
    } else {
      GH.GovLaterReflexive(w.gov, now);
    }
  }

  /** Only executeProposal takes the guard, and only when it is free. */
  lemma EnteredMoves(cfg: G.Config, g: G.Gov, now: uint64, call: G.Call)
    requires G.Shaped(g)
    ensures var r := G.Apply(cfg, g, now, call);
            r.Ok? ==> (call.CallBeginExecution? ==> !g.entered && r.value.entered)
                      && (!call.CallBeginExecution? ==> r.value.entered == g.entered)
  {
  }

  /** What a sortition call does to the governor: nothing, or one registerMember. */
  predicate Admits(l: G.Ledger, l': G.Ledger, now: uint64, call: S.Call) {
    if call.CallClaim? then G.RegisterMember(l, now, call.id, call.wallet, S.GovernorHouse(call.house)) == Ok(l')
    else l' == l
  }

  lemma SortitionTouches(c: Chain, w: World, now: uint64, call: S.Call, s: S.Sort, l: G.Ledger)
    requires Shaped(w) && S.Apply(c.oracle, w.sort, w.gov.ledger, now, call) == Ok((s, l))
    ensures Admits(w.gov.ledger, l, now, call)
  {
    hide S.BooksShaped, G.RegisterMember;
  }

  lemma AdmissionKeeps(c: Chain, g: G.Gov, l: G.Ledger, now: uint64, call: S.Call)
    requires GI.GovOk(c.cfg, g, now)
    requires Admits(g.ledger, l, now, call)
    ensures GI.GovOk(c.cfg, g.(ledger := l), now) && GH.GovLater(g, g.(ledger := l), now)
  {
    hide GI.LedgerOk, GI.BindingsOk, GI.CaseOk, GH.GovLater, G.Shaped;
    if !call.CallClaim? {
      GH.GovLaterReflexive(g, now);
      assert g.(ledger := l) == g;
    } else {
      GI.MemberCallKeeps(c.cfg, g, g.(ledger := l), now, call.id, call.wallet, S.GovernorHouse(call.house));
      GH.NewMemberMovesOn(g, g.(ledger := l), now, call.id, call.wallet, S.GovernorHouse(call.house));
    }
  }

  lemma SortitionStepKeeps(c: Chain, w: World, w': World, now: uint64, call: S.Call)
    requires WorldOk(c, w, now) && Shaped(w) && w' == SortitionStep(c, w, now, call)
    ensures WorldOk(c, w', now) && GH.GovLater(w.gov, w'.gov, now) && SI.SortLater(w.sort, w'.sort)
  {
    hide GI.GovOk, SI.SortOk, GH.GovLater, SI.SortLater, S.BooksShaped, S.Shaped, G.Shaped, SI.LedgerGrows;
    var r := S.Apply(c.oracle, w.sort, w.gov.ledger, now, call);
    hide S.Apply;
    if r.Ok? {
      SortitionTouches(c, w, now, call, r.value.0, r.value.1);
      AdmissionKeeps(c, w.gov, r.value.1, now, call);
      SI.ApplyKeeps(c.oracle, w.sort, w'.sort, w.gov.ledger, w'.gov.ledger, now, call);
      SI.ApplyMovesOn(c.oracle, w.sort, w'.sort, w.gov.ledger, w'.gov.ledger, now, call);
    } else {
      GH.GovLaterReflexive(w.gov, now);
      SortLaterReflexive(w.sort);
    }
  }

  lemma SortLaterReflexive(s: S.Sort)
    ensures SI.SortLater(s, s)
  {
  }

  lemma Released(c: Chain, g: G.Gov, s: S.Sort, now: uint64)
    requires GI.GovOk(c.cfg, g, now) && SI.SortOk(c.oracle, s, g.ledger, now)
    ensures GI.GovOk(c.cfg, g.(entered := false), now) && SI.SortOk(c.oracle, s, g.(entered := false).ledger, now)
    ensures GH.GovLater(g, g.(entered := false), now)
  {
    hide GI.LedgerOk, GI.CaseOk, SI.SortOk;
  }

  /** Every step keeps both contracts' invariants, in the present and in the state to fall back to. */
  lemma StepKeeps(c: Chain, w: World, before: uint64, e: Event)
    requires WorldOk(c, w, before) && before <= e.now && Shaped(w)
    ensures WorldOk(c, Step(c, w, e), e.now)
  {
    hide GI.GovOk, SI.SortOk, G.Shaped, S.Shaped, S.BooksShaped, GH.GovLater, SI.SortLater, GovernorStep, SortitionStep;
    WorldLater(c, w, before, e.now);
    match e.call
    case OnGovernor(call) => GovernorStepKeeps(c, w, GovernorStep(c, w, e.now, call), e.now, call);
    case OnSortition(order) => SortitionStepKeeps(c, w, SortitionStep(c, w, e.now, order), e.now, order);
    case Return(success) => Released(c, w.gov, w.sort, e.now);
  }

  // Runs

  predicate Chronological(start: uint64, events: seq<Event>) {
    forall i :: 0 <= i < |events| ==> start <= events[i].now && (i > 0 ==> events[i - 1].now <= events[i].now)
  }

  function Clock(start: uint64, events: seq<Event>): uint64 {
    if events == [] then start else events[|events| - 1].now
  }

  /** The world after a run, if every step finds it in shape; RunKeeps proves that it does. */
  ghost function Run(c: Chain, w: World, events: seq<Event>): World {
    if events == [] then w
    else
      var last := |events| - 1;
      var before := Run(c, w, events[..last]);
      if Shaped(before) then Step(c, before, events[last]) else before
  }

  /** Invariants hold throughout every run. */
  lemma {:induction false} RunKeeps(c: Chain, w: World, start: uint64, events: seq<Event>)
    requires WorldOk(c, w, start) && Chronological(start, events)
    ensures WorldOk(c, Run(c, w, events), Clock(start, events)) && start <= Clock(start, events)
    decreases |events|
  {
    hide WorldOk, Shaped, Step;
    if events != [] {
      var last := |events| - 1;
      RunKeeps(c, w, start, events[..last]);
      var before := Run(c, w, events[..last]);
      OkIsShaped(c, before, Clock(start, events[..last]));
      StepKeeps(c, before, Clock(start, events[..last]), events[last]);
    }
  }

  /** What a correctly configured deployment can come to. */
  ghost predicate Reachable(c: Chain, w: World, now: uint64) {
    G.Configured(c.cfg) && exists start, events :: Chronological(start, events) && w == Run(c, GENESIS, events) && now == Clock(start, events)
  }

  lemma ReachableOk(c: Chain, w: World, now: uint64)
    requires Reachable(c, w, now)
    ensures WorldOk(c, w, now)
  {
    hide WorldOk;
    var start, events :| Chronological(start, events) && w == Run(c, GENESIS, events) && now == Clock(start, events);
    GenesisOk(c, start);
    RunKeeps(c, GENESIS, start, events);
  }

  // History

  /** Nothing of (g, s) has been rewritten, neither now nor in the state to fall back to. */
  ghost predicate Builds(g: G.Gov, s: S.Sort, w: World, since: uint64) {
    && GH.GovLater(g, w.gov, since) && SI.SortLater(s, w.sort)
    && (w.saved.Some? ==> GH.GovLater(g, w.saved.value.0, since) && SI.SortLater(s, w.saved.value.1))
  }

  lemma StepBuilds(c: Chain, g: G.Gov, s: S.Sort, w: World, since: uint64, before: uint64, e: Event)
    requires WorldOk(c, w, before) && Shaped(w) && since <= before <= e.now && Builds(g, s, w, since)
    ensures Builds(g, s, Step(c, w, e), since)
  {
    hide GI.GovOk, SI.SortOk, G.Shaped, S.Shaped, S.BooksShaped, GH.GovLater, SI.SortLater;
    WorldLater(c, w, before, e.now);
    var w' := Step(c, w, e);
    match e.call
    case OnGovernor(call) =>
      GovernorStepKeeps(c, w, w', e.now, call);
      GH.GovLaterTransitive(g, w.gov, w'.gov, since, e.now);
    case OnSortition(order) =>
      SortitionStepKeeps(c, w, w', e.now, order);
      GH.GovLaterTransitive(g, w.gov, w'.gov, since, e.now);
      SI.SortLaterTransitive(s, w.sort, w'.sort);
    case Return(success) =>
      Released(c, w.gov, w.sort, e.now);
      GH.GovLaterTransitive(g, w.gov, w.gov.(entered := false), since, e.now);
  }

  /**
   From any state between transactions, no run rewrites a registration, a drawn rank, a seat, an
   approval, a queue time or an execution, even if an execution is rolled back on the way.
   */
  lemma {:induction false} RunBuilds(c: Chain, w: World, start: uint64, events: seq<Event>)
    requires WorldOk(c, w, start) && w.saved.None? && Chronological(start, events)
    ensures Builds(w.gov, w.sort, Run(c, w, events), start)
    decreases |events|
  {
    hide WorldOk, Shaped, Step, Builds;
    if events == [] {
      NothingBuilt(w, start);
    } else {
      var last := |events| - 1;
      var earlier := Clock(start, events[..last]);
      var before := Run(c, w, events[..last]);
      RunBuilds(c, w, start, events[..last]);
      RunKeeps(c, w, start, events[..last]);
      OkIsShaped(c, before, earlier);
      StepBuilds(c, w.gov, w.sort, before, start, earlier, events[last]);
    }
  }

  lemma NothingBuilt(w: World, since: uint64)
    requires w.saved.None?
    ensures Builds(w.gov, w.sort, w, since)
  {
  }

  // What time fixes

  ghost predicate Fixes(g: G.Gov, w: World, since: uint64) {
    && GH.GovLater(g, w.gov, since) && GH.Frozen(g, w.gov, since)
    && (w.saved.Some? ==> GH.GovLater(g, w.saved.value.0, since) && GH.Frozen(g, w.saved.value.0, since))
  }

  lemma AdmissionFreezes(g: G.Gov, l: G.Ledger, now: uint64, call: S.Call)
    requires Admits(g.ledger, l, now, call)
    ensures GH.Frozen(g, g.(ledger := l), now)
  {
  }

  lemma GovernorStepFreezes(c: Chain, w: World, w': World, now: uint64, call: G.Call)
    requires WorldOk(c, w, now) && Shaped(w) && w' == GovernorStep(c, w, now, call)
    ensures GH.Frozen(w.gov, w'.gov, now)
  {
    hide SI.SortOk, GH.Frozen, GI.LedgerOk, GI.BindingsOk, GI.CaseOk, S.BooksShaped, S.Shaped, G.Apply;
    if G.Apply(c.cfg, w.gov, now, call).Ok? { GH.ApplyFreezes(c.cfg, w.gov, w'.gov, now, call); }
    else { GH.FrozenReflexive(w.gov, now); }
  }

  lemma SortitionStepFreezes(c: Chain, w: World, w': World, now: uint64, call: S.Call)
    requires Shaped(w) && w' == SortitionStep(c, w, now, call)
    ensures GH.Frozen(w.gov, w'.gov, now)
  {
    hide GH.Frozen, S.BooksShaped, S.Shaped, G.Shaped, S.Apply, Admits;
    var r := S.Apply(c.oracle, w.sort, w.gov.ledger, now, call);
    if r.Ok? {
      SortitionTouches(c, w, now, call, r.value.0, r.value.1);
      AdmissionFreezes(w.gov, r.value.1, now, call);
    } else {
      GH.FrozenReflexive(w.gov, now);
    }
  }

  lemma ReleasedFreezes(g: G.Gov, since: uint64)
    ensures GH.Frozen(g, g.(entered := false), since)
  {
  }

  lemma CasesHaveTerms(c: Chain, w: World, now: uint64)
    requires WorldOk(c, w, now)
    ensures forall p :: p in w.gov.cases ==> p in w.gov.ledger.terms
  {
  }

  lemma FixedAgain(g: G.Gov, w: World, w': World, since: uint64, now: uint64)
    requires Fixes(g, w, since) && since <= now && GH.GovLater(w.gov, w'.gov, now) && GH.Frozen(w.gov, w'.gov, now)
    requires forall p :: p in w.gov.cases ==> p in w.gov.ledger.terms
    requires w'.saved == w.saved || w'.saved == None || w'.saved == Some((w.gov, w.sort))
    ensures Fixes(g, w', since)
  {
    hide GH.GovLater, GH.Frozen;
    GH.GovLaterTransitive(g, w.gov, w'.gov, since, now);
    GH.FrozenTransitive(g, w.gov, w'.gov, since, now);
  }

  lemma StepFixes(c: Chain, g: G.Gov, w: World, since: uint64, before: uint64, e: Event)
    requires WorldOk(c, w, before) && Shaped(w) && since <= before <= e.now && Fixes(g, w, since)
    ensures Fixes(g, Step(c, w, e), since)
  {
    hide GI.GovOk, SI.SortOk, G.Shaped, S.Shaped, S.BooksShaped, GH.GovLater, GH.Frozen, SI.SortLater, G.Apply, S.Apply;
    CasesHaveTerms(c, w, before);
    WorldLater(c, w, before, e.now);
    var w' := Step(c, w, e);
    match e.call
    case OnGovernor(call) =>
      GovernorStepKeeps(c, w, w', e.now, call);
      GovernorStepFreezes(c, w, w', e.now, call);
      FixedAgain(g, w, w', since, e.now);
    case OnSortition(order) =>
      SortitionStepKeeps(c, w, w', e.now, order);
      SortitionStepFreezes(c, w, w', e.now, order);
      FixedAgain(g, w, w', since, e.now);
    case Return(success) =>
      if success && w.saved.Some? {
        Released(c, w.gov, w.sort, e.now);
        ReleasedFreezes(w.gov, e.now);
        FixedAgain(g, w, w', since, e.now);
      }
  }

  /** No run changes the electorate of a started session, a review after voting began, or a ballot after it ended. */
  lemma {:induction false} RunFixes(c: Chain, w: World, start: uint64, events: seq<Event>)
    requires WorldOk(c, w, start) && w.saved.None? && Chronological(start, events)
    ensures Fixes(w.gov, Run(c, w, events), start)
    decreases |events|
  {
    hide WorldOk, Shaped, Step, GH.Frozen, GH.GovLater;
    if events == [] {
      GH.GovLaterReflexive(w.gov, start);
      GH.FrozenReflexive(w.gov, start);
    } else {
      var last := |events| - 1;
      var earlier := Clock(start, events[..last]);
      var before := Run(c, w, events[..last]);
      RunFixes(c, w, start, events[..last]);
      RunKeeps(c, w, start, events[..last]);
      OkIsShaped(c, before, earlier);
      StepFixes(c, w.gov, before, start, earlier, events[last]);
    }
  }

  /** A signed ballot counts once: after it was accepted, no later state accepts its nonce again. */
  lemma SignedBallotNeverReplays(c: Chain, w: World, start: uint64, vote: G.Call, events: seq<Event>, again: G.Call,
                                 later: uint64)
    requires WorldOk(c, w, start) && w.saved.None? && vote.CallCastVoteBySig? && again.CallCastVoteBySig?
    requires again.member == vote.member && again.nonce == vote.nonce
    requires G.Shaped(w.gov) && G.Apply(c.cfg, w.gov, start, vote).Ok? && Chronological(start, events)
    ensures var w1 := w.(gov := G.Apply(c.cfg, w.gov, start, vote).value);
            var w2 := Run(c, w1, events);
            G.Shaped(w2.gov) && !G.Apply(c.cfg, w2.gov, later, again).Ok?
  {
    var w1 := w.(gov := G.Apply(c.cfg, w.gov, start, vote).value);
    VoteSpendsNonce(c.cfg, w.gov, start, vote);
    OkIsShaped(c, w, start);
    GovernorStepKeeps(c, w, w1, start, vote);
    hide GI.GovOk, SI.SortOk, G.Apply, G.Shaped;
    RunKeeps(c, w1, start, events);
    RunFixes(c, w1, start, events);
    var w2 := Run(c, w1, events);
    hide Run;
    OkIsShaped(c, w2, Clock(start, events));
    assert Read(w1.gov.nonces, vote.member, 0) <= Read(w2.gov.nonces, vote.member, 0);
    OldNonceIsRefused(c.cfg, w2.gov, later, again);
  }

  lemma VoteSpendsNonce(cfg: G.Config, g: G.Gov, now: uint64, vote: G.Call)
    requires G.Shaped(g) && vote.CallCastVoteBySig?
    ensures var r := G.Apply(cfg, g, now, vote);
            r.Ok? ==> Read(g.nonces, vote.member, 0) == vote.nonce
                      && Read(r.value.nonces, vote.member, 0) == vote.nonce + 1
  {
  }

  lemma OldNonceIsRefused(cfg: G.Config, g: G.Gov, now: uint64, vote: G.Call)
    requires G.Shaped(g) && vote.CallCastVoteBySig? && vote.nonce < Read(g.nonces, vote.member, 0)
    ensures !G.Apply(cfg, g, now, vote).Ok?
  {
  }

  // What every run guarantees

  /** Over any run the reported state of a proposal only moves forward. */
  lemma ProposalStatesMoveForward(c: Chain, w: World, start: uint64, events: seq<Event>, p: nat)
    requires WorldOk(c, w, start) && w.saved.None? && Chronological(start, events) && p in w.gov.cases
    ensures var (g, g', now) := (w.gov, Run(c, w, events).gov, Clock(start, events));
            && p in g.ledger.terms && p in g'.cases && p in g'.ledger.terms
            && g'.ledger.terms[p] == g.ledger.terms[p]
            && GH.CanFollow(G.StateOf(g.ledger.terms[p], g.cases[p], start),
                            G.StateOf(g'.ledger.terms[p], g'.cases[p], now))
  {
    var g, g', now := w.gov, Run(c, w, events).gov, Clock(start, events);
    RunKeeps(c, w, start, events);
    RunBuilds(c, w, start, events);
    hide SI.SortOk, SI.SortLater, GI.LedgerOk, GI.BindingsOk, Run;
    assert GI.CaseOk(c.cfg, g.ledger, p, g.cases[p], start);
    assert GI.CaseOk(c.cfg, g'.ledger, p, g'.cases[p], now);
    hide GI.CaseOk, GH.CaseLater;
    GH.StatesMoveForward(c.cfg, g.ledger, g'.ledger, p, g.cases[p], g'.cases[p], start, now);
  }

  /** Both worlds, in any two runs, drew the same people at the same ranks from the same randomness. */
  lemma RankedListIsReproducible(c: Chain, a: World, b: World, now: uint64, later: uint64, k: S.HouseKey, rank: nat)
    requires Reachable(c, a, now) && Reachable(c, b, later) && Shaped(a) && Shaped(b)
    requires k in a.sort.configs && k in b.sort.configs
    requires a.sort.configs[k].population == b.sort.configs[k].population
    requires a.sort.rounds[k.sessionId].word == b.sort.rounds[k.sessionId].word
    requires rank < |S.RankedList(a.sort, k)| && rank < |S.RankedList(b.sort, k)|
    ensures S.RankedList(a.sort, k)[rank] == S.RankedList(b.sort, k)[rank]
  {
    hide GI.GovOk, SI.SortOk, Reachable, G.Shaped, S.BooksShaped;
    ReachableOk(c, a, now);
    ReachableOk(c, b, later);
    SI.RankEntry(c.oracle, a.sort, a.gov.ledger, now, k, rank);
    SI.RankEntry(c.oracle, b.sort, b.gov.ledger, later, k, rank);
  }

  /**
   In every reachable state every drawn position is the rank plus keccak(word, session, house, rank) modulo the
   candidates left, and the list names who stood there.
   */
  lemma EveryPositionIsDrawn(c: Chain, w: World, now: uint64, k: S.HouseKey, r: nat)
    requires Reachable(c, w, now) && k in w.sort.draws && r < |w.sort.draws[k]|
    ensures Shaped(w) && k in w.sort.configs && k.sessionId in w.sort.rounds && r < w.sort.configs[k].population as nat
    ensures var (round, n, draws) := (w.sort.rounds[k.sessionId], w.sort.configs[k].population as nat, w.sort.draws[k]);
            && round.fulfilled
            && draws[r] == r + c.oracle.draw(round.word, k.sessionId, k.house, r) % (n - r)
            && S.RankedList(w.sort, k)[r] == FisherYates.Trace(draws, r, draws[r])
  {
    hide GI.GovOk, Reachable;
    ReachableOk(c, w, now);
    OkIsShaped(c, w, now);
    assert SI.BookOk(c.oracle, w.sort, k, now);
    FisherYates.SelectionTraces(w.sort.configs[k].population as nat, w.sort.draws[k], r);
  }

  /**
   No list is favoured by construction: for every ordered selection there are keccak values under which every run
   ranks these candidates, whenever the word and the population are the given ones.
   */
  lemma EveryListIsPossible(cfg: G.Config, proves: (seq<Hash>, Hash, S.Leaf) -> bool, k: S.HouseKey, word: nat, n: nat, list: seq<nat>)
    requires FisherYates.OrderedSelection(n, list)
    ensures AlwaysRanks(Chain(cfg, OracleFor(proves, FisherYates.DrawsFor(n, list))), k, word, n, list)
  {
    var o := OracleFor(proves, FisherYates.DrawsFor(n, list));
    forall w, now, r: nat |
      Reachable(Chain(cfg, o), w, now) && Shaped(w) && k in w.sort.configs && w.sort.configs[k].population as nat == n
      && w.sort.rounds[k.sessionId].word == word && r < |S.RankedList(w.sort, k)| && r < |list|
      ensures S.RankedList(w.sort, k)[r] == list[r]
    {
      WorldRanks(Chain(cfg, o), w, now, proves, k, list, r);
    }
    assert AlwaysRanks(Chain(cfg, o), k, word, n, list);
  }

  lemma WorldRanks(c: Chain, w: World, now: uint64, proves: (seq<Hash>, Hash, S.Leaf) -> bool, k: S.HouseKey, list: seq<nat>, r: nat)
    requires Reachable(c, w, now) && Shaped(w) && k in w.sort.configs && r < |S.RankedList(w.sort, k)| && r < |list|
    requires FisherYates.OrderedSelection(w.sort.configs[k].population as nat, list)
    requires c.oracle == OracleFor(proves, FisherYates.DrawsFor(w.sort.configs[k].population as nat, list))
    ensures S.RankedList(w.sort, k)[r] == list[r]
  {
    hide GI.GovOk, SI.SortOk, Reachable, G.Shaped, S.BooksShaped, OracleFor, S.Ranking;
    ReachableOk(c, w, now);
    SI.RankEntry(c.oracle, w.sort, w.gov.ledger, now, k, r);
    RanksWanted(c.oracle, proves, k, w.sort.rounds[k.sessionId].word, w.sort.configs[k].population as nat, list, r);
  }

  /** Every run ranks a prefix of the list, or all of it and more. */
  ghost predicate AlwaysRanks(c: Chain, k: S.HouseKey, word: nat, n: nat, list: seq<nat>) {
    forall w, now, r: nat ::
      Reachable(c, w, now) && Shaped(w) && k in w.sort.configs && w.sort.configs[k].population as nat == n
      && w.sort.rounds[k.sessionId].word == word && r < |S.RankedList(w.sort, k)| && r < |list| ==>
        S.RankedList(w.sort, k)[r] == list[r]
  }

  function OracleFor(proves: (seq<Hash>, Hash, S.Leaf) -> bool, positions: seq<nat>): S.Oracle {
    S.Oracle((word: nat, id: nat, house: uint8, rank: nat) =>
               if rank < |positions| && rank <= positions[rank] then positions[rank] - rank else 0,
             proves)
  }

  lemma RanksWanted(o: S.Oracle, proves: (seq<Hash>, Hash, S.Leaf) -> bool, k: S.HouseKey, word: nat, n: nat, list: seq<nat>, r: nat)
    requires FisherYates.OrderedSelection(n, list) && r < |list|
    requires o == OracleFor(proves, FisherYates.DrawsFor(n, list))
    ensures |list| <= n && S.Ranking(o, word, k, n, n)[r] == list[r]
  {
    hide S.Draws;
    WantedDraws(o, proves, k, word, n, list);
    S.RankingPrefix(o, word, k, n, |list|, n);
  }

  lemma WantedDraws(o: S.Oracle, proves: (seq<Hash>, Hash, S.Leaf) -> bool, k: S.HouseKey, word: nat, n: nat, list: seq<nat>)
    requires FisherYates.OrderedSelection(n, list) && o == OracleFor(proves, FisherYates.DrawsFor(n, list))
    ensures |list| <= n && S.Draws(o, word, k, n, |list|) == FisherYates.DrawsFor(n, list)
  {
    hide S.DrawAt, OracleFor, FisherYates.DrawsFor;
    var positions := FisherYates.DrawsFor(n, list);
    assert |positions| == |list| by { assert |FisherYates.Selection(n, positions)| == |positions|; }
    forall i | 0 <= i < |list| ensures S.Draws(o, word, k, n, |list|)[i] == positions[i] {
      DrawsWanted(proves, k, word, n, positions, i);
    }
  }

  lemma DrawsWanted(proves: (seq<Hash>, Hash, S.Leaf) -> bool, k: S.HouseKey, word: nat, n: nat, positions: seq<nat>, i: nat)
    requires FisherYates.ValidDraws(n, positions) && i < |positions|
    ensures S.DrawAt(OracleFor(proves, positions), word, k, n, i) == positions[i]
  {
    BelowModulus(positions[i] - i, n - i);
  }

  lemma BelowModulus(a: nat, b: nat)
    requires a < b
    ensures a % b == a
  {
  }

  /** An execution earned it and happened once, with the registered payload, inside its window. */
  lemma EveryExecutionEarnedIt(c: Chain, w: World, now: uint64, p: nat)
    requires Reachable(c, w, now) && p in w.gov.cases && w.gov.cases[p].executed
    ensures p in w.gov.ledger.terms && w.gov.ledger.terms[p].sessionId in w.gov.ledger.sessions
    ensures GH.Earned(c.cfg, w.gov.ledger, p, w.gov.cases[p])
  {
    ReachableOk(c, w, now);
    hide SI.SortOk, GI.BindingsOk, Reachable;
    assert GI.CaseOk(c.cfg, w.gov.ledger, p, w.gov.cases[p], now);
    hide GI.LedgerOk, GI.CaseOk;
    GH.ExecutedProposalEarnedIt(c.cfg, w.gov.ledger, p, w.gov.cases[p], now);
  }

  /** Every execution came after voting had ended by at least its class's delay: positive, longer for graver changes. */
  lemma EveryExecutionWaited(c: Chain, w: World, now: uint64, p: nat)
    requires Reachable(c, w, now) && p in w.gov.cases && w.gov.cases[p].executed
    ensures p in w.gov.ledger.terms && |w.gov.cases[p].runs| == 1
    ensures var (t, at, cfg) := (w.gov.ledger.terms[p], w.gov.cases[p].runs[0].at as int, c.cfg);
            && at >= t.votingEndsAt as int + cfg.p1Delay as int > t.votingEndsAt as int
            && (t.changeClass == G.Upgrade ==> at >= t.votingEndsAt as int + cfg.p2Delay as int)
            && (t.changeClass == G.Constitutional ==> at >= t.votingEndsAt as int + cfg.p3Delay as int)
  {
    EveryExecutionEarnedIt(c, w, now, p);
    ExecutedHasClass(c, w, now, p);
  }

  lemma ExecutedHasClass(c: Chain, w: World, now: uint64, p: nat)
    requires Reachable(c, w, now) && p in w.gov.cases
    ensures p in w.gov.ledger.terms && w.gov.ledger.terms[p].changeClass != G.NoClass
  {
    ReachableOk(c, w, now);
    hide SI.SortOk, GI.BindingsOk, Reachable;
    assert GI.TermsOk(w.gov.ledger, p);
  }

  /** Behind every execution stand both Houses: each reached its own quorum, with a positive sum of intensities. */
  lemma EveryExecutionHadBothHouses(c: Chain, w: World, now: uint64, p: nat)
    requires Reachable(c, w, now) && p in w.gov.cases && w.gov.cases[p].executed
    ensures p in w.gov.ledger.terms && w.gov.ledger.terms[p].sessionId in w.gov.ledger.sessions
    ensures var l := w.gov.ledger;
            var session, creators, users := l.sessions[l.terms[p].sessionId], G.Voters(l, p, G.CreatorHouse), G.Voters(l, p, G.UserHouse);
            && |creators| >= session.creatorQuorum as int && |users| >= session.userQuorum as int
            && FiniteSums.Sum(creators, G.IntensitiesOn(l.ballots, p)) > 0
            && FiniteSums.Sum(users, G.IntensitiesOn(l.ballots, p)) > 0
  {
    EveryExecutionEarnedIt(c, w, now, p);
    hide Reachable, G.Voters;
  }

  /**
   A registered proposal executes what its registrar handed in: whatever happens after the registration, its number
   keeps those terms and every call made for it goes to that target with that value and payload.
   */
  lemma ExecutesWhatWasRegistered(c: Chain, w: World, start: uint64, registration: G.Call, events: seq<Event>)
    requires WorldOk(c, w, start) && w.saved.None? && Shaped(w) && Chronological(start, events)
    requires registration.CallRegisterProposal? || registration.CallRegisterCfpProposal?
    requires G.Apply(c.cfg, w.gov, start, registration).Ok?
    ensures var w1 := w.(gov := G.Apply(c.cfg, w.gov, start, registration).value);
            var g, id, t := Run(c, w1, events).gov, w.gov.ledger.proposalCount + 1, registration.terms;
            && id in g.ledger.terms && g.ledger.terms[id] == t && id in g.cases
            && forall run :: run in g.cases[id].runs ==>
                 run.target == t.target && run.value == t.value && run.callDataHash == t.callDataHash && run.chainId == c.cfg.chainId
  {
    hide GI.GovOk, SI.SortOk, S.Shaped, S.BooksShaped, Run;
    var w1, id := w.(gov := G.Apply(c.cfg, w.gov, start, registration).value), w.gov.ledger.proposalCount + 1;
    RegistrationStands(c, w, start, registration);
    hide G.Apply;
    RunKeeps(c, w1, start, events);
    RunBuilds(c, w1, start, events);
    RegisteredRuns(c, Run(c, w1, events), Clock(start, events), w1, start, id);
  }

  lemma RegistrationStands(c: Chain, w: World, start: uint64, registration: G.Call)
    requires WorldOk(c, w, start) && Shaped(w)
    requires registration.CallRegisterProposal? || registration.CallRegisterCfpProposal?
    requires G.Apply(c.cfg, w.gov, start, registration).Ok?
    ensures var g, id := G.Apply(c.cfg, w.gov, start, registration).value, w.gov.ledger.proposalCount + 1;
            && WorldOk(c, w.(gov := g), start) && id in g.cases && id in g.ledger.terms && g.ledger.terms[id] == registration.terms
  {
    hide GI.GovOk, SI.SortOk, S.Shaped, S.BooksShaped;
    var w1 := w.(gov := G.Apply(c.cfg, w.gov, start, registration).value);
    if registration.CallRegisterProposal? {
      GE.WhenProposalIsRegistered(c.cfg, w.gov, start, registration.terms);
    } else {
      GE.WhenCfpProposalIsRegistered(c.cfg, w.gov, start, registration.cfp, registration.revision, registration.terms);
    }
    assert w1 == GovernorStep(c, w, start, registration);
    hide G.Apply;
    GovernorStepKeeps(c, w, w1, start, registration);
  }

  lemma RegisteredRuns(c: Chain, w: World, now: uint64, w1: World, since: uint64, id: nat)
    requires WorldOk(c, w, now) && Builds(w1.gov, w1.sort, w, since) && id in w1.gov.cases && id in w1.gov.ledger.terms
    ensures var (g, t) := (w.gov, w1.gov.ledger.terms[id]);
            && id in g.ledger.terms && g.ledger.terms[id] == t && id in g.cases
            && forall run :: run in g.cases[id].runs ==>
                 run.target == t.target && run.value == t.value && run.callDataHash == t.callDataHash && run.chainId == c.cfg.chainId
  {
    hide SI.SortOk, SI.SortLater, GI.LedgerOk, GI.BindingsOk, GI.CaseOk, GH.CaseLater;
    CaseRuns(c.cfg, w.gov.ledger, id, w.gov.cases[id], now);
  }

  lemma CaseRuns(cfg: G.Config, l: G.Ledger, p: nat, c: G.Case, now: uint64)
    requires GI.CaseOk(cfg, l, p, c, now)
    ensures p in l.terms
    ensures forall run :: run in c.runs ==>
      && run.target == l.terms[p].target && run.value == l.terms[p].value
      && run.callDataHash == l.terms[p].callDataHash && run.chainId == cfg.chainId
  {
  }

  /** One House's influence over a whole session is bounded by its voters and the budget. */
  lemma InfluenceIsBounded(c: Chain, w: World, now: uint64, s: nat, h: G.House)
    requires Reachable(c, w, now) && s in w.gov.ledger.sessions
    ensures forall m :: G.Spent(w.gov.ledger, s, m) <= w.gov.ledger.sessions[s].budget as int
    ensures var (l, v) := (w.gov.ledger, |Recounts.SessionVoters(w.gov.ledger, s, h)|);
            Recounts.InfluenceOf(l, s, h) <= v * v * l.sessions[s].budget as int
  {
    ReachableOk(c, w, now);
    hide SI.SortOk, GI.BindingsOk, Reachable, GI.CaseOk;
    Recounts.SessionInfluenceBound(w.gov.ledger, s, h, w.gov.ledger.sessions[s].budget as nat);
  }

  /** Seats of a session go to different people, each the drawn and proven owner of a leaf, in time. */
  lemma SeatsAreEarnedOnce(c: Chain, w: World, now: uint64, a: (S.HouseKey, uint32), b: (S.HouseKey, uint32))
    requires Reachable(c, w, now) && a in w.sort.seats && b in w.sort.seats && a != b && a.0.sessionId == b.0.sessionId
    ensures w.sort.seats[a].leaf.identity != w.sort.seats[b].leaf.identity
    ensures w.sort.seats[a].leaf.wallet != w.sort.seats[b].leaf.wallet
    ensures a.0 == b.0 ==> w.sort.seats[a].leaf.index != w.sort.seats[b].leaf.index
  {
    hide GI.GovOk, SI.SortOk, Reachable;
    ReachableOk(c, w, now);
    SI.OneSeatPerPerson(c.oracle, w.sort, w.gov.ledger, now, a, b);
  }

  lemma HousesNeverOverfull(c: Chain, w: World, now: uint64, k: S.HouseKey)
    requires Reachable(c, w, now) && k in w.sort.configs
    ensures k in w.sort.limits
    ensures |SI.SeatedRanks(w.sort, k)| <= w.sort.limits[k] as nat <= S.Seats(w.sort.configs[k])
            <= w.sort.configs[k].population as nat
  {
    hide GI.GovOk, SI.SortOk, Reachable;
    ReachableOk(c, w, now);
    SI.HouseNeverOverfull(c.oracle, w.sort, w.gov.ledger, now, k);
  }

  /**
   Every seat was taken by the proven owner of the drawn leaf, who is a Creator member for a seat of house 1 and
   a User member for a seat of house 2; roots were
   fixed before eligibility closed, randomness came before the deadline, and seats before the session.
   */
  lemma EverySeatIsOnTime(c: Chain, w: World, now: uint64, k: S.HouseKey, rank: uint32)
    requires Reachable(c, w, now) && (k, rank) in w.sort.seats
    ensures Shaped(w) && k in w.sort.configs && k.sessionId in w.gov.ledger.sessions
    ensures w.sort.rounds[k.sessionId].fulfilled && rank as nat < |S.RankedList(w.sort, k)|
    ensures var (seat, r, config) := (w.sort.seats[(k, rank)], w.sort.rounds[k.sessionId], w.sort.configs[k]);
            && r.createdAt < r.closesAt <= r.fulfilledAt < r.claimDeadline
            && r.claimDeadline < w.gov.ledger.sessions[k.sessionId].startsAt
            && seat.at < w.gov.ledger.sessions[k.sessionId].startsAt
            && (seat.at <= r.claimDeadline <==> rank < config.primarySeats)
            && seat.leaf.index as nat == S.RankedList(w.sort, k)[rank]
            && c.oracle.proves(seat.proof, config.root, seat.leaf) && seat.caller == seat.leaf.wallet
            && (k.sessionId, seat.leaf.wallet) in w.gov.ledger.houses
            && var house := w.gov.ledger.houses[(k.sessionId, seat.leaf.wallet)];
               (k.house == 1 && house == G.CreatorHouse) || (k.house == 2 && house == G.UserHouse)
  {
    hide GI.GovOk, Reachable;
    ReachableOk(c, w, now);
    OkIsShaped(c, w, now);
    assert SI.SeatOk(c.oracle, w.sort, w.gov.ledger, k, rank);
    assert SI.BookOk(c.oracle, w.sort, k, now);
    assert SI.RoundOk(w.sort, w.gov.ledger, k.sessionId, now);
  }

  // Failing executions

  predicate OnlyReenters(events: seq<Event>) {
    forall i :: 0 <= i < |events| ==> !events[i].call.Return?
  }

  /** While the target runs, the state to fall back to stays what it was. */
  lemma {:induction false} ReentryKeepsSaved(c: Chain, w: World, events: seq<Event>)
    requires w.saved.Some? && w.gov.entered && OnlyReenters(events)
    ensures Run(c, w, events).saved == w.saved && Run(c, w, events).gov.entered
    decreases |events|
  {
    hide Shaped;
    if events != [] {
      var last := |events| - 1;
      ReentryKeepsSaved(c, w, events[..last]);
      var before := Run(c, w, events[..last]);
      if Shaped(before) { ReentryStep(c, before, events[last]); }
    }
  }

  lemma ReentryStep(c: Chain, w: World, e: Event)
    requires Shaped(w) && w.saved.Some? && w.gov.entered && !e.call.Return?
    ensures Step(c, w, e).saved == w.saved && Step(c, w, e).gov.entered
  {
    hide S.BooksShaped, S.Shaped, G.Apply, S.Apply;
    if e.call.OnGovernor? { EnteredMoves(c.cfg, w.gov, e.now, e.call.call); }
  }

  lemma FreeBetweenTransactions(c: Chain, w: World, now: uint64)
    requires WorldOk(c, w, now) && w.saved.None?
    ensures !w.gov.entered
  {
  }

  /** However the target re-enters before it fails, a failed execution leaves no trace in either contract. */
  lemma FailedExecutionLeavesNoTrace(c: Chain, w: World, before: uint64, begin: Event, events: seq<Event>, end: uint64)
    requires WorldOk(c, w, before) && w.saved.None? && before <= begin.now
    requires begin.call.OnGovernor? && begin.call.call.CallBeginExecution? && Shaped(w)
    requires G.Apply(c.cfg, w.gov, begin.now, begin.call.call).Ok?
    requires OnlyReenters(events)
    ensures ReturnStep(Run(c, Step(c, w, begin), events), false) == w
  {
    hide WorldOk, S.Shaped, S.BooksShaped, G.Apply;
    assert !w.gov.entered by { FreeBetweenTransactions(c, w, before); }
    EnteredMoves(c.cfg, w.gov, begin.now, begin.call.call);
    ReentryKeepsSaved(c, Step(c, w, begin), events);
  }
}
