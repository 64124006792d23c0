/** What holds over every run of the enrollment system, and when an undisturbed process succeeds. */
module EnrollmentRuns {
  import opened Common
  import opened EnrollmentStore
  import opened Enrollment
  import opened EnrollmentInvariants
  import R = RegistryRules
  import D = DistributorRules

  // Nothing is taken back

  /** Rows go onward, approvals and fundings stay, signed transactions and receipts are never rewritten. */
  ghost predicate WorldLater(w: World, w': World) {
    && Onward(w.rows, w'.rows) && R.Later(w.registry, w'.registry) && w.sent <= w'.sent
    && forall tx :: tx in w.receipts ==> tx in w'.receipts && w'.receipts[tx] == w.receipts[tx]
  }

  lemma WorldLaterTransitive(a: World, b: World, c: World)
    requires WorldLater(a, b) && WorldLater(b, c)
    ensures WorldLater(a, c)
  {
  }

  lemma WorldLaterReflexive(w: World)
    ensures WorldLater(w, w)
  {
  }

  lemma FailsOnward(w: World, k: nat)
    requires k < |w.queue|
    ensures Onward(w.rows, Fails(w, k).rows)
  {
  }

  lemma BeginsOnward(w: World, k: nat, p: Hash, operation: Hash, expiresAt: uint64)
    requires k < |w.queue|
    ensures Onward(w.rows, Begins(w, k, p, operation, expiresAt).rows)
  {
    hide Onward;
    StaysOnward(w.rows);
    var id := w.queue[k].id;
    if id in w.invitations {
      CreationGoesOnward(w.rows, id, p, operation, w.invitations[id].wallet, w.invitations[id].roles, expiresAt);
    }
  }

  lemma Approved2Onward(w: World, k: nat, row: Row, p: Option<R.Participant>)
    requires k < |w.queue|
    ensures Onward(w.rows, Approved2(w, k, row, p).rows)
  {
    hide Onward;
    StaysOnward(w.rows);
    UpdatesGoOnward(w.rows, w.queue[k].id, 0, row.fundingTx, 0);
  }

  lemma StatusOnward(w: World, k: nat, a: Await)
    requires k < |w.queue| && w.queue[k].id in w.rows && a.Status?
    ensures Onward(w.rows, ReadsStatus(w, k, a).rows)
  {
    hide Onward, Approved2;
    var id := w.queue[k].id;
    StaysOnward(w.rows);
    if a.participant.Some? && a.index.Some? && a.balance {
      Approved2Onward(w, k, a.row, a.participant.value);
      var found := w.(seen := w.seen + {id});
      Approved2Onward(found, k, a.row, a.participant.value);
      var w' := found.(rows := Approved(w.rows, id, a.row.approvalTx));
      Approved2Onward(w', k, w'.rows[id], a.participant.value);
      UpdatesGoOnward(w.rows, id, 0, a.row.approvalTx, 0);
      OnwardTransitive(w.rows, w'.rows, Approved2(w', k, w'.rows[id], a.participant.value).rows);
    }
  }

  lemma ContinuesOnward(w: World, k: nat, a: Await, reply: Reply)
    requires k < |w.queue| && w.queue[k].id in w.rows
    ensures Onward(w.rows, Continues(w, k, a, reply).rows)
  {
    hide Onward, ReadsStatus, Fails;
    var id := w.queue[k].id;
    StaysOnward(w.rows);
    FailsOnward(w, k);
    if a.Status? {
      StatusOnward(w, k, a.(participant := Some(if a.row.participant in w.registry.participants
                                                then Some(w.registry.participants[a.row.participant]) else None)));
      StatusOnward(w, k, a.(index := Some(Read(w.registry.ids, a.row.wallet, 0))));
      StatusOnward(w, k, a.(balance := true));
    } else if a.SendApproval? {
      FailsOnward(w.(sent := w.sent + [Approve(id, a.row.participant, a.row.wallet, a.row.roles, a.row.expiresAt)]), k);
    } else if a.SendFunding? {
      FailsOnward(w.(sent := w.sent + [Fund(id, a.row.participant, a.row.operation)]), k);
    } else if a.ApprovalReceipt? {
      TwoOnward(w.rows, ApprovalSubmitted(w.rows, id, a.tx), id, a.tx, 0);
    } else if a.FinalBalance? {
      TwoOnward(w.rows, FundingSubmitted(w.rows, id, a.tx), id, a.tx, Gain(a.before, Holds(w, a.row.wallet)));
    }
  }

  /** Two updates in a row. */
  lemma TwoOnward(t: Table, t1: Table, id: nat, tx: nat, amount: nat)
    requires t1 == ApprovalSubmitted(t, id, tx) || t1 == FundingSubmitted(t, id, tx)
    ensures Onward(t, Approved(t1, id, Some(tx))) && Onward(t, Funded(t1, id, Some(tx), amount))
  {
    hide Onward;
    UpdatesGoOnward(t, id, tx, Some(tx), amount);
    UpdatesGoOnward(t1, id, tx, Some(tx), amount);
    OnwardTransitive(t, t1, Approved(t1, id, Some(tx)));
    OnwardTransitive(t, t1, Funded(t1, id, Some(tx), amount));
  }

  lemma JobStepMovesOn(w: World, now: uint64, e: Event)
    requires e.Begin? || e.Answer?
    ensures WorldLater(w, Step(w, now, e))
  {
    hide Onward, Fresh;
    WorldLaterReflexive(w);
    if Step(w, now, e) != w {
      SameIsLater(w.registry);
      if e.Begin? {
        BeginsOnward(w, e.k, e.p, e.operation, e.expiresAt);
        BeginsSends(w, e.k, e.p, e.operation, e.expiresAt);
        hide Begins;
      } else {
        ContinuesOnward(w, e.k, w.queue[e.k].phase.await, e.reply);
        ContinuesSends(w, e.k, w.queue[e.k].phase.await, e.reply);
        hide Continues;
      }
    }
  }

  lemma BeginsSends(w: World, k: nat, p: Hash, operation: Hash, expiresAt: uint64)
    requires k < |w.queue|
    ensures SameChain(w, Begins(w, k, p, operation, expiresAt))
  {
    hide Settles, Waits, Created;
    SettlesSends(w, k, false);
    if w.queue[k].id in w.invitations {
      var invitation := w.invitations[w.queue[k].id];
      var w' := w.(rows := Created(w.rows, w.queue[k].id, p, operation, invitation.wallet, invitation.roles, expiresAt));
      SettlesSends(w', k, false);
      SettlesSends(w', k, true);
      CreatedHas(w.rows, w.queue[k].id, p, operation, invitation.wallet, invitation.roles, expiresAt);
      WaitsSends(w', k, Status(w'.rows[w.queue[k].id], false, None, None, false));
    }
  }

  lemma CreatedHas(t: Table, id: nat, p: Hash, operation: Hash, wallet: Address, roles: bv8, expiresAt: uint64)
    ensures id in Created(t, id, p, operation, wallet, roles, expiresAt)
  {
  }

  lemma ContinuesSends(w: World, k: nat, a: Await, reply: Reply)
    requires k < |w.queue| && w.queue[k].id in w.rows
    ensures var w' := Continues(w, k, a, reply);
            w.sent <= w'.sent && w'.receipts == w.receipts && w'.registry == w.registry
  {
    hide Approved, ApprovalSubmitted, Funded, FundingSubmitted, ReadsStatus, Fails, Holds, Gain;
    FailsSends(w, k);
    if a.Status? {
      StatusSends(w, k, a.(participant := Some(if a.row.participant in w.registry.participants
                                               then Some(w.registry.participants[a.row.participant]) else None)));
      StatusSends(w, k, a.(index := Some(Read(w.registry.ids, a.row.wallet, 0))));
      StatusSends(w, k, a.(balance := true));
    } else if a.SendApproval? {
      FailsSends(w.(sent := w.sent + [Approve(w.queue[k].id, a.row.participant, a.row.wallet, a.row.roles,
                                              a.row.expiresAt)]), k);
    } else if a.SendFunding? {
      FailsSends(w.(sent := w.sent + [Fund(w.queue[k].id, a.row.participant, a.row.operation)]), k);
    }
  }

  lemma FailsSends(w: World, k: nat)
    requires k < |w.queue|
    ensures SameChain(w, Fails(w, k))
  {
    hide Failed, Settles;
    SettlesSends(w.(rows := Failed(w.rows, w.queue[k].id, w.queue[k].id in w.rows && InFundingPhase(w.rows[w.queue[k].id].state))), k, false);
  }

  /** What the operator does leaves chain, signed transactions and receipts alone. */
  predicate SameChain(w: World, w': World) {
    w'.sent == w.sent && w'.receipts == w.receipts && w'.registry == w.registry
  }

  lemma SettlesSends(w: World, k: nat, ok: bool)
    requires k < |w.queue|
    ensures SameChain(w, Settles(w, k, ok))
  {
  }

  lemma WaitsSends(w: World, k: nat, a: Await)
    requires k < |w.queue|
    ensures SameChain(w, Waits(w, k, a))
  {
  }

  lemma Approved2Sends(w: World, k: nat, row: Row, p: Option<R.Participant>)
    requires k < |w.queue|
    ensures SameChain(w, Approved2(w, k, row, p))
  {
    hide Settles, Waits, Funded;
    SettlesSends(w, k, false);
    WaitsSends(w, k, FundingBalance(row));
    SettlesSends(w.(rows := Funded(w.rows, w.queue[k].id, row.fundingTx, 0)), k, true);
  }

  lemma StatusSends(w: World, k: nat, a: Await)
    requires k < |w.queue| && w.queue[k].id in w.rows && a.Status?
    ensures SameChain(w, ReadsStatus(w, k, a))
  {
    hide Approved2, Approved, Waits, Settles;
    WaitsSends(w, k, a);
    WaitsSends(w, k, ApprovalFees(a.row));
    SettlesSends(w, k, false);
    if a.participant.Some? && a.index.Some? && a.balance {
      Approved2Sends(w, k, a.row, a.participant.value);
      var found := w.(seen := w.seen + {w.queue[k].id});
      Approved2Sends(found, k, a.row, a.participant.value);
      var w' := found.(rows := Approved(w.rows, w.queue[k].id, a.row.approvalTx));
      KeepsRows(w.rows, w.queue[k].id, a.row.approvalTx);
      Approved2Sends(w', k, w'.rows[w.queue[k].id], a.participant.value);
    }
  }

  lemma KeepsRows(t: Table, id: nat, tx: Option<nat>)
    requires id in t
    ensures id in Approved(t, id, tx)
  {
  }

  lemma StepMovesOn(w: World, now: uint64, e: Event)
    requires WorldOk(w, now)
    ensures WorldLater(w, Step(w, now, e))
  {
    hide Onward, CoreOk, QueueOk, AwaitsOk, R.Later, R.Apply, D.Apply, Begins, Continues, WorldLater, Fresh;
    if e.Begin? || e.Answer? {
      JobStepMovesOn(w, now, e);
    } else if e.Land? {
      LandingMovesOn(w, now, e.tx, e.accepts);
    } else if e.RegistryCall? || e.BankCall? {
      OutsideStepKeeps(w, now, e);
      OnlyChainMoves(w, Step(w, now, e));
    } else {
      SameIsLater(w.registry);
      OnlyChainMoves(w, Step(w, now, e));
    }
  }

  lemma OnlyChainMoves(w: World, w': World)
    requires w'.rows == w.rows && w'.sent == w.sent && w'.receipts == w.receipts && R.Later(w.registry, w'.registry)
    ensures WorldLater(w, w')
  {
    StaysOnward(w.rows);
    hide Onward, R.Later;
  }

  lemma LandingMovesOn(w: World, now: uint64, tx: nat, accepts: bool)
    requires WorldOk(w, now)
    ensures WorldLater(w, Lands(w, now, tx, accepts))
  {
    hide WorldOk, Onward, R.Later, R.Apply, AtRegistry, CallOf;
    LandsKeeps(w, now, tx, accepts);
    StaysOnward(w.rows);
  }

  // Runs

  datatype Timed = At(now: uint64, event: Event)

  predicate Chronological(start: uint64, events: seq<Timed>) {
    forall i :: 0 <= i < |events| ==> start <= events[i].now && (i > 0 ==> events[i - 1].now <= events[i].now)
  }

  function Clock(start: uint64, events: seq<Timed>): uint64 {
    if events == [] then start else events[|events| - 1].now
  }

  function Run(w: World, events: seq<Timed>): World {
    if events == [] then w
    else Step(Run(w, events[..|events| - 1]), events[|events| - 1].now, events[|events| - 1].event)
  }

  /** From any consistent world, every run stays consistent and takes nothing back. */
  lemma {:induction false} RunKeeps(w: World, start: uint64, events: seq<Timed>)
    requires WorldOk(w, start) && Chronological(start, events)
    ensures WorldOk(Run(w, events), Clock(start, events)) && start <= Clock(start, events)
    ensures WorldLater(w, Run(w, events))
    decreases |events|
  {
    hide WorldOk, WorldLater, Step;
    if events == [] {
      WorldLaterReflexive(w);
    } else {
      var before, e := events[..|events| - 1], events[|events| - 1];
      RunKeeps(w, start, before);
      StepKeeps(Run(w, before), Clock(start, before), e.now, e.event);
      EnrollmentInvariants.LaterClock(Run(w, before), Clock(start, before), e.now);
      StepMovesOn(Run(w, before), e.now, e.event);
      WorldLaterTransitive(w, Run(w, before), Run(w, events));
    }
  }

  ghost predicate Reachable(w: World, now: uint64) {
    exists start, events :: Chronological(start, events) && w == Run(GENESIS, events) && now == Clock(start, events)
  }

  lemma ReachableOk(w: World, now: uint64)
    requires Reachable(w, now)
    ensures WorldOk(w, now)
  {
    hide WorldOk, WorldLater;
    var start, events :| Chronological(start, events) && w == Run(GENESIS, events) && now == Clock(start, events);
    GenesisOk(start);
    RunKeeps(GENESIS, start, events);
  }

  // Safety

  /**
   Each claimed invitation gets at most one approval and one initial funding. All its transactions
   name one participant and the wallet that claimed it; whatever the operator got approved, asked to fund
   or recorded as funded is for that wallet and those roles.
   */
  lemma OncePerInvitation(w: World, now: uint64, id: nat)
    requires Reachable(w, now) && id in w.rows
    ensures id in w.invitations
    ensures var (row, r) := (w.rows[id], w.registry);
            && row.wallet == w.invitations[id].wallet && row.roles == w.invitations[id].roles
            && R.Times(r.approvals, row.participant) <= 1 && R.Times(r.fundings, row.participant) <= 1
            && (forall e :: (e in r.approvals || e in r.fundings) && e.participant == row.participant && Matches(row, r) ==>
                  e.wallet == row.wallet)
            && (row.state == FUNDED ==> Matches(row, r))
            && forall tx :: 0 <= tx < |w.sent| && w.sent[tx].id == id ==>
                 && w.sent[tx].p == row.participant && (w.sent[tx].Approve? ==> w.sent[tx].wallet == row.wallet)
                 && (w.sent[tx].Fund? || Read(w.receipts, tx, false) ==> Matches(row, r))
  {
    ReachableOk(w, now);
    hide Reachable, QueueOk, AwaitsOk, R.WalletsOk, R.BooksAgree, R.RolesOk, D.BookOk;
    assert RowOk(w.rows[id], w.registry);
    forall tx | 0 <= tx < |w.sent| ensures SentOk(w.sent[tx], w.rows, w.registry, Read(w.receipts, tx, false)) {}
    hide CoreOk;
  }

  /** The database never claims more than the chain has done, and different invitations never share a person. */
  lemma DatabaseTellsTheTruth(w: World, now: uint64, id: nat, other: nat)
    requires Reachable(w, now) && id in w.rows && other in w.rows
    ensures Phase(w.rows[id].state) >= 1 ==> R.Times(w.registry.approvals, w.rows[id].participant) == 1
    ensures w.rows[id].state == FUNDED ==>
      R.Times(w.registry.fundings, w.rows[id].participant) == 1 && w.rows[id].participant in w.bank.profiles
      && w.bank.profiles[w.rows[id].participant].wallet == w.rows[id].wallet
    ensures id != other ==> w.rows[id].participant != w.rows[other].participant
  {
    ReachableOk(w, now);
    hide Reachable, QueueOk, AwaitsOk, R.WalletsOk, R.RolesOk, D.BookOk;
    assert RowOk(w.rows[id], w.registry);
  }

  /**
   Another approver can take a stored participant id for another wallet or other roles first. Then in no
   later state is the row FUNDED, was a funding signed for it, or did an approval of the operator succeed.
   */
  lemma ForeignApprovalStrands(w: World, start: uint64, events: seq<Timed>, id: nat)
    requires WorldOk(w, start) && Chronological(start, events) && id in w.rows
    requires w.rows[id].participant in w.registry.participants && !Matches(w.rows[id], w.registry)
    ensures var later := Run(w, events);
            && id in later.rows && later.rows[id].state != FUNDED
            && forall tx :: 0 <= tx < |later.sent| && later.sent[tx].id == id ==>
                 later.sent[tx].Approve? && !Read(later.receipts, tx, false)
  {
    RunKeeps(w, start, events);
    var later := Run(w, events);
    hide QueueOk, AwaitsOk, Run, R.ChainOk, RowsOk;
    assert RowOk(later.rows[id], later.registry) && !Matches(later.rows[id], later.registry);
    forall tx | 0 <= tx < |later.sent|
      ensures SentOk(later.sent[tx], later.rows, later.registry, Read(later.receipts, tx, false)) {}
    hide CoreOk;
  }

  /**
   A run that meets an error or a timeout fails, and its row records it in the phase it is in: the funding once the
   approval is known, else the approval. A row that is FUNDED, and every other row, stays as it is.
   */
  lemma WhatAFailureRecords(w: World, now: uint64, k: nat)
    requires k < |w.queue| && w.queue[k].phase.Running? && w.queue[k].id in w.rows
    ensures var (w', id, row) := (Step(w, now, Answer(k, Broken)), w.queue[k].id, w.rows[w.queue[k].id]);
            && w'.queue == w.queue[k := Job(id, Settled(false))] && w'.running == w.running - {id}
            && w' == w.(rows := w'.rows, queue := w'.queue, running := w'.running)
            && (row.state == FUNDED ==> w'.rows == w.rows)
            && (row.state in {APPROVED, FUNDING_SUBMITTED, FUNDING_FAILED} ==>
                  w'.rows == w.rows[id := row.(state := FUNDING_FAILED)])
            && (row.state in {READY_FOR_APPROVAL, APPROVAL_SUBMITTED, APPROVAL_FAILED} ==>
                  w'.rows == w.rows[id := row.(state := APPROVAL_FAILED)])
  {
  }

  /**
   In every run: a row in the funding phase has an approval that is not its own exactly if somebody else's
   call took its participant id for another wallet or other roles and a process acted on that approval.
   The operator records it before it compares.
   */
  lemma WhenApprovalIsForeign(w: World, now: uint64, id: nat)
    requires Reachable(w, now) && id in w.rows
    ensures var row := w.rows[id];
            InFundingPhase(row.state) && !Matches(row, w.registry) <==>
              && id in w.seen && row.participant in w.taken
              && w.taken[row.participant] != Taken(row.wallet, row.roles)
  {
    ReachableOk(w, now);
    hide Reachable, QueueOk, AwaitsOk, R.ChainOk, RowsOk, Solvent;
    assert RowOk(w.rows[id], w.registry) && RowOrigin(w.rows[id], w.registry, w.taken, id in w.seen);
  }

  /** Whatever happens later, a row keeps its identity, never goes back a phase, and FUNDED is final. */
  lemma PhasesNeverGoBack(w: World, start: uint64, events: seq<Timed>, id: nat)
    requires WorldOk(w, start) && Chronological(start, events) && id in w.rows
    ensures var (row, later) := (w.rows[id], Run(w, events).rows);
            && id in later && later[id].participant == row.participant && later[id].operation == row.operation
            && later[id].wallet == row.wallet && later[id].roles == row.roles
            && Phase(row.state) <= Phase(later[id].state)
            && (row.state == FUNDED ==> later[id].state == FUNDED)
  {
    hide CoreOk, QueueOk, AwaitsOk, Run;
    RunKeeps(w, start, events);
  }

  /** At most one process body runs, and at most one promise per invitation is open. */
  lemma OneBodyAtATime(w: World, now: uint64, i: nat, j: nat)
    requires Reachable(w, now) && i < |w.queue| && j < |w.queue| && i != j
    ensures !(w.queue[i].phase.Running? && w.queue[j].phase.Running?)
    ensures !w.queue[i].phase.Settled? && !w.queue[j].phase.Settled? ==> w.queue[i].id != w.queue[j].id
  {
    ReachableOk(w, now);
    hide Reachable, CoreOk, AwaitsOk;
  }

  /**
   A failure never blocks the queue: in front of every open promise stands one whose turn it is.
   It can begin, or its run can end, and ending it, well or badly, passes the turn to the next.
   */
  lemma FailureNeverBlocks(w: World, now: uint64, k: nat) returns (turn: nat)
    requires Reachable(w, now) && k < |w.queue| && !w.queue[k].phase.Settled?
    ensures turn <= k && Frontier(w.queue, turn)
    ensures w.queue[turn].phase == Waiting ==>
      forall p, operation, expiresAt :: Fresh(w, p, operation) ==>
        Step(w, now, Begin(turn, p, operation, expiresAt)) == Begins(w, turn, p, operation, expiresAt)
    ensures w.queue[turn].phase.Running? ==>
      var w' := Step(w, now, Answer(turn, Broken));
      w'.queue[turn].phase == Settled(false) && (turn + 1 < |w.queue| ==> Frontier(w'.queue, turn + 1))
  {
    ReachableOk(w, now);
    hide Reachable, CoreOk;
    turn := TurnBefore(w.queue, k);
    assert w.queue[turn].phase.Running? ==> AwaitOk(w, w.queue[turn].id, w.queue[turn].phase.await);
    hide AwaitsOk, AwaitOk, Continues, Begins, Fresh;
    if w.queue[turn].phase.Running? { BreakingPassesTheTurn(w, now, turn); }
  }

  /** Promises settle in order, so the first open one has its turn. */
  lemma TurnBefore(queue: seq<Job>, k: nat) returns (turn: nat)
    requires k < |queue| && !queue[k].phase.Settled?
    requires forall i, j :: 0 <= i < j < |queue| && queue[j].phase != Waiting ==> queue[i].phase.Settled?
    ensures turn <= k && Frontier(queue, turn)
  {
    turn := k;
    while turn > 0 && !queue[turn - 1].phase.Settled?
      invariant turn <= k && !queue[turn].phase.Settled?
    {
      turn := turn - 1;
    }
    forall i | 0 <= i < turn ensures queue[i].phase.Settled? {
      if i < turn - 1 { assert queue[turn - 1].phase.Settled?; }
    }
  }

  lemma BreakingPassesTheTurn(w: World, now: uint64, turn: nat)
    requires Frontier(w.queue, turn) && w.queue[turn].phase.Running? && w.queue[turn].id in w.rows
    requires turn + 1 < |w.queue| ==> !w.queue[turn + 1].phase.Settled?
    ensures var w' := Step(w, now, Answer(turn, Broken));
            w'.queue[turn].phase == Settled(false) && (turn + 1 < |w.queue| ==> Frontier(w'.queue, turn + 1))
  {
    var w' := Step(w, now, Answer(turn, Broken));
    assert w'.queue == w.queue[turn := Job(w.queue[turn].id, Settled(false))];
  }
}
