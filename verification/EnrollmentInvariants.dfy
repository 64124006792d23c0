/** What database, chain and queue agree on after every step, whatever is interleaved, lost or forgotten. */
module EnrollmentInvariants {
  import opened Common
  import opened EnrollmentStore
  import opened Enrollment
  import R = RegistryRules
  import D = DistributorRules

  /** A row belongs to its claimed invitation, and no two rows share a participant id. */
  ghost predicate RowsOk(rows: Table, invitations: map<nat, Invitation>) {
    && (forall id :: id in rows ==>
          && rows[id].participant != 0 && rows[id].operation != 0 && rows[id].wallet != 0
          && id in invitations && invitations[id] == Invitation(rows[id].wallet, rows[id].roles))
    && forall i, j :: i in rows && j in rows && i != j ==> rows[i].participant != rows[j].participant
  }

  /** The chain approved the row's participant for the row's wallet and roles. */
  predicate Matches(row: Row, r: R.Registry) {
    && row.participant in r.participants
    && r.participants[row.participant].wallet == row.wallet
    && r.participants[row.participant].approvedRoles == row.roles
  }

  /** The database never runs ahead of the chain, and FUNDED means funded for the claimed wallet. */
  predicate RowOk(row: Row, r: R.Registry) {
    && (Phase(row.state) >= 1 ==> row.participant in r.participants)
    && (row.state == FUNDED ==> R.Funded(r, row.participant) && Matches(row, r))
  }

  /** Signed transactions speak for their invitation's row; fundings only once its approval matches. */
  predicate SentOk(s: Sent, rows: Table, r: R.Registry, done: bool) {
    && s.id in rows
    && var row := rows[s.id];
       match s
       case Approve(_, p, wallet, roles, expiresAt) =>
         && p == row.participant && wallet == row.wallet && roles == row.roles && expiresAt == row.expiresAt
         && (done ==> Matches(row, r))
       case Fund(_, p, operation) =>
         p == row.participant && operation == row.operation && Matches(row, r) && (done ==> R.Funded(r, p))
  }

  /** No wallet holds less than nothing. */
  ghost predicate Solvent(others: map<Address, int>, log: seq<D.Transfer>) {
    forall a :: 0 <= Balance(others, log, a)
  }

  /** An approval of a row's participant is the row's or was taken by somebody else; what a process acts on, it saw. */
  predicate RowOrigin(row: Row, r: R.Registry, taken: map<Hash, Taken>, seen: bool) {
    && (row.participant in r.participants ==> Matches(row, r) || row.participant in taken)
    && (Phase(row.state) >= 1 ==> Matches(row, r) || seen)
    && (seen ==> Phase(row.state) >= 1)
  }

  ghost predicate OriginOk(rows: Table, r: R.Registry, taken: map<Hash, Taken>, seen: set<nat>) {
    && (forall p :: p in taken ==>
          p in r.participants && Taken(r.participants[p].wallet, r.participants[p].approvedRoles) == taken[p])
    && (forall id :: id in rows ==> RowOrigin(rows[id], r, taken, id in seen))
    && forall id :: id in seen ==> id in rows
  }

  ghost predicate CoreOk(w: World, now: uint64) {
    && Solvent(w.others, w.bank.log) && OriginOk(w.rows, w.registry, w.taken, w.seen)
    && RowsOk(w.rows, w.invitations) && R.ChainOk(w.registry, w.bank, now)
    && (forall id :: id in w.rows ==> RowOk(w.rows[id], w.registry))
    && (forall tx :: 0 <= tx < |w.sent| ==> SentOk(w.sent[tx], w.rows, w.registry, Read(w.receipts, tx, false)))
    && forall tx :: tx in w.receipts ==> tx < |w.sent|
  }

  /** Promises settle in order; running names exactly the unsettled ones, one per invitation. */
  ghost predicate QueueOk(queue: seq<Job>, running: map<nat, nat>) {
    && (forall i, j :: 0 <= i < j < |queue| && queue[j].phase != Waiting ==> queue[i].phase.Settled?)
    && (forall id :: id in running ==>
          running[id] < |queue| && queue[running[id]].id == id && !queue[running[id]].phase.Settled?)
    && forall k :: 0 <= k < |queue| && !queue[k].phase.Settled? ==> queue[k].id in running && running[queue[k].id] == k
  }

  /** What an answered participant read says stays true of the chain. */
  predicate ReadOk(row: Row, r: R.Registry, v: R.Participant) {
    && row.participant in r.participants
    && v.wallet == r.participants[row.participant].wallet
    && v.approvedRoles == r.participants[row.participant].approvedRoles
    && (v.initialFundingCompleted ==> R.Funded(r, row.participant))
  }

  /** What a run in progress knows is true: its copy is current and what it waits for is its own. */
  predicate AwaitOk(w: World, id: nat, a: Await) {
    && id in w.rows && a.row == w.rows[id] && a.row.state != FUNDED
    && match a
       case Status(row, again, participant, _, _) =>
         && (again ==> InFundingPhase(row.state))
         && (participant.Some? && participant.value.Some? ==> ReadOk(row, w.registry, participant.value.value))
       case ApprovalFees(_) => true
       case SendApproval(_) => true
       case ApprovalReceipt(_, tx) => tx < |w.sent| && w.sent[tx].Approve? && w.sent[tx].id == id
       case FundingBalance(row) => InFundingPhase(row.state) && Matches(row, w.registry)
       case FundingFees(row, _) => InFundingPhase(row.state) && Matches(row, w.registry)
       case SendFunding(row, _) => InFundingPhase(row.state) && Matches(row, w.registry)
       case FundingReceipt(row, _, tx) =>
         InFundingPhase(row.state) && tx < |w.sent| && w.sent[tx].Fund? && w.sent[tx].id == id
       case FinalBalance(row, _, tx) =>
         && InFundingPhase(row.state) && tx < |w.sent| && w.sent[tx].Fund? && w.sent[tx].id == id
         && Read(w.receipts, tx, false)
  }

  ghost predicate AwaitsOk(w: World) {
    forall k :: 0 <= k < |w.queue| && w.queue[k].phase.Running? ==> AwaitOk(w, w.queue[k].id, w.queue[k].phase.await)
  }

  ghost predicate WorldOk(w: World, now: uint64) {
    CoreOk(w, now) && QueueOk(w.queue, w.running) && AwaitsOk(w)
  }

  lemma GenesisOk(now: uint64)
    ensures WorldOk(GENESIS, now)
  {
  }

  // The queue

  /** The promise whose turn it is. */
  predicate Frontier(queue: seq<Job>, k: nat) {
    && k < |queue| && !queue[k].phase.Settled?
    && forall i :: 0 <= i < k ==> queue[i].phase.Settled?
  }

  lemma RequestKeepsQueue(w: World, id: nat)
    requires QueueOk(w.queue, w.running)
    ensures var w' := Requested(w, id);
            QueueOk(w'.queue, w'.running) && forall k :: 0 <= k < |w.queue| ==> w'.queue[k] == w.queue[k]
  {
    hide QueueOk;
    if id !in w.running { NewPromiseKeepsQueue(w.queue, w.running, id); }
  }

  lemma NewPromiseKeepsQueue(queue: seq<Job>, running: map<nat, nat>, id: nat)
    requires QueueOk(queue, running) && id !in running
    ensures QueueOk(queue + [Job(id, Waiting)], running[id := |queue|])
  {
    var queue', running' := queue + [Job(id, Waiting)], running[id := |queue|];
    assert forall k :: 0 <= k < |queue| ==> queue'[k] == queue[k];
    assert queue'[|queue|] == Job(id, Waiting);
  }

  lemma BeginsAtFrontier(queue: seq<Job>, running: map<nat, nat>, k: nat)
    requires QueueOk(queue, running) && k < |queue|
    requires queue[k].phase.Running? || (queue[k].phase == Waiting && (k == 0 || queue[k - 1].phase.Settled?))
    ensures Frontier(queue, k)
  {
  }

  lemma PhaseChangeKeepsQueue(queue: seq<Job>, running: map<nat, nat>, k: nat, a: Await)
    requires QueueOk(queue, running) && Frontier(queue, k)
    ensures QueueOk(queue[k := queue[k].(phase := Running(a))], running)
  {
  }

  lemma SettlementKeepsQueue(queue: seq<Job>, running: map<nat, nat>, k: nat, ok: bool)
    requires QueueOk(queue, running) && Frontier(queue, k)
    ensures QueueOk(queue[k := queue[k].(phase := Settled(ok))], running - {queue[k].id})
  {
  }

  lemma SettlesKeeps(w: World, k: nat, ok: bool, now: uint64)
    requires CoreOk(w, now) && QueueOk(w.queue, w.running) && Frontier(w.queue, k)
    ensures WorldOk(Settles(w, k, ok), now)
  {
    hide RowOk, R.ChainOk, RowsOk, AwaitOk;
    SettlementKeepsQueue(w.queue, w.running, k, ok);
    var w' := Settles(w, k, ok);
  }

  lemma WaitsKeeps(w: World, k: nat, a: Await, now: uint64)
    requires CoreOk(w, now) && QueueOk(w.queue, w.running) && Frontier(w.queue, k) && AwaitOk(w, w.queue[k].id, a)
    ensures WorldOk(Waits(w, k, a), now)
  {
    hide RowOk, R.ChainOk, RowsOk;
    PhaseChangeKeepsQueue(w.queue, w.running, k, a);
    var w' := Waits(w, k, a);
  }

  // Rows

  /** A row moves on, possibly because its process saw an approval. */
  lemma RowUpdated(w: World, id: nat, row: Row, seen: set<nat>, now: uint64)
    requires CoreOk(w, now) && id in w.rows && RowOk(row, w.registry) && (seen == w.seen || seen == w.seen + {id})
    requires RowOrigin(row, w.registry, w.taken, id in seen)
    requires row == w.rows[id].(state := row.state, approvalTx := row.approvalTx, fundingTx := row.fundingTx,
                                amount := row.amount)
    ensures CoreOk(w.(rows := w.rows[id := row], seen := seen), now)
  {
    hide R.ChainOk, RowOk, RowOrigin;
  }

  lemma RowCreated(w: World, id: nat, row: Row, now: uint64)
    requires CoreOk(w, now) && id !in w.rows && Fresh(w, row.participant, row.operation) && Phase(row.state) == 0
    requires id in w.invitations && w.invitations[id] == Invitation(row.wallet, row.roles) && row.wallet != 0
    ensures CoreOk(w.(rows := w.rows[id := row]), now)
  {
    hide R.ChainOk, Solvent;
  }

  lemma FailsKeeps(w: World, k: nat, now: uint64)
    requires CoreOk(w, now) && QueueOk(w.queue, w.running) && Frontier(w.queue, k) && w.queue[k].id in w.rows
    ensures WorldOk(Fails(w, k), now)
  {
    hide R.ChainOk, RowsOk, QueueOk, CoreOk;
    var id := w.queue[k].id;
    var funding := InFundingPhase(w.rows[id].state);
    var rows := Failed(w.rows, id, funding);
    RowKnown(w, id, now);
    if w.rows[id].state != FUNDED { RowUpdated(w, id, rows[id], w.seen, now); }
    assert w.(rows := rows, seen := w.seen) == w.(rows := rows);
    assert w.rows[id].state == FUNDED ==> w.(rows := rows) == w;
    SettlesKeeps(w.(rows := rows), k, false, now);
  }

  lemma RowKnown(w: World, id: nat, now: uint64)
    requires CoreOk(w, now) && id in w.rows
    ensures RowOk(w.rows[id], w.registry) && RowOrigin(w.rows[id], w.registry, w.taken, id in w.seen)
  {
  }

  lemma BeginsKeeps(w: World, k: nat, p: Hash, operation: Hash, expiresAt: uint64, now: uint64)
    requires CoreOk(w, now) && QueueOk(w.queue, w.running) && Frontier(w.queue, k) && Fresh(w, p, operation)
    ensures WorldOk(Begins(w, k, p, operation, expiresAt), now)
  {
    hide R.ChainOk, RowsOk, QueueOk, CoreOk;
    var id := w.queue[k].id;
    if id !in w.invitations || w.invitations[id].wallet == 0 {
      SettlesKeeps(w, k, false, now);
    } else {
      var rows := Created(w.rows, id, p, operation, w.invitations[id].wallet, w.invitations[id].roles, expiresAt);
      var w' := w.(rows := rows);
      if id !in w.rows { RowCreated(w, id, rows[id], now); } else { assert w' == w; }
      if rows[id].wallet != w.invitations[id].wallet || rows[id].roles != w.invitations[id].roles {
        SettlesKeeps(w', k, false, now);
      } else if rows[id].state == FUNDED {
        SettlesKeeps(w', k, true, now);
      } else {
        WaitsKeeps(w', k, Status(rows[id], false, None, None, false), now);
      }
    }
  }

  // Continuing after an await

  lemma Approved2Keeps(w: World, k: nat, row: Row, p: Option<R.Participant>, now: uint64)
    requires CoreOk(w, now) && QueueOk(w.queue, w.running) && Frontier(w.queue, k)
    requires w.queue[k].id in w.rows && row == w.rows[w.queue[k].id] && row.state != FUNDED
    requires InFundingPhase(row.state) && (p.Some? ==> ReadOk(row, w.registry, p.value))
    ensures WorldOk(Approved2(w, k, row, p), now)
  {
    hide R.ChainOk, RowsOk, QueueOk, CoreOk;
    var id := w.queue[k].id;
    RowKnown(w, id, now);
    if p.None? || p.value.wallet != row.wallet || p.value.approvedRoles != row.roles || !p.value.active {
      SettlesKeeps(w, k, false, now);
    } else if !p.value.initialFundingCompleted {
      WaitsKeeps(w, k, FundingBalance(row), now);
    } else {
      var rows := Funded(w.rows, id, row.fundingTx, 0);
      RowUpdated(w, id, rows[id], w.seen, now);
      assert w.(rows := w.rows[id := rows[id]], seen := w.seen) == w.(rows := rows);
      SettlesKeeps(w.(rows := rows), k, true, now);
    }
  }

  lemma DecidesKeeps(w: World, k: nat, row: Row, again: bool, p: Option<R.Participant>, index: Hash, now: uint64)
    requires CoreOk(w, now) && QueueOk(w.queue, w.running) && Frontier(w.queue, k)
    requires w.queue[k].id in w.rows && row == w.rows[w.queue[k].id] && row.state != FUNDED
    requires (p.Some? ==> ReadOk(row, w.registry, p.value)) && (again ==> InFundingPhase(row.state))
    ensures WorldOk(Decides(w, k, row, again, p, index), now)
  {
    hide R.ChainOk, RowsOk, QueueOk, CoreOk, Approved2;
    var id := w.queue[k].id;
    RowKnown(w, id, now);
    if again {
      Approved2Keeps(w, k, row, p, now);
    } else if index != 0 && index != row.participant {
      SettlesKeeps(w, k, false, now);
    } else if p.None? {
      WaitsKeeps(w, k, ApprovalFees(row), now);
    } else {
      var rows := if InFundingPhase(row.state) then w.rows else Approved(w.rows, id, row.approvalTx);
      RowUpdated(w, id, rows[id], w.seen + {id}, now);
      assert rows == w.rows[id := rows[id]];
      Approved2Keeps(w.(rows := rows, seen := w.seen + {id}), k, rows[id], p, now);
    }
  }

  lemma StatusKeeps(w: World, k: nat, a: Await, now: uint64)
    requires CoreOk(w, now) && QueueOk(w.queue, w.running) && Frontier(w.queue, k)
    requires w.queue[k].id in w.rows && a.Status? && AwaitOk(w, w.queue[k].id, a)
    ensures WorldOk(ReadsStatus(w, k, a), now)
  {
    hide R.ChainOk, RowsOk, QueueOk, CoreOk, Decides;
    if a.participant.Some? && a.index.Some? && a.balance {
      DecidesKeeps(w, k, a.row, a.again, a.participant.value, a.index.value, now);
    } else {
      WaitsKeeps(w, k, a, now);
    }
  }

  lemma SentAdded(w: World, s: Sent, now: uint64)
    requires CoreOk(w, now) && s.id in w.rows
    requires s == (var row := w.rows[s.id];
                   if s.Approve? then Approve(s.id, row.participant, row.wallet, row.roles, row.expiresAt)
                   else Fund(s.id, row.participant, row.operation))
    requires s.Fund? ==> Matches(w.rows[s.id], w.registry)
    ensures CoreOk(w.(sent := w.sent + [s]), now) && |w.sent| !in w.receipts
  {
    hide R.ChainOk, RowsOk, RowOk;
    var w' := w.(sent := w.sent + [s]);
  }

  lemma SendsKeeps(w: World, k: nat, s: Sent, heard: Await, reply: Reply, now: uint64)
    requires CoreOk(w, now) && QueueOk(w.queue, w.running) && Frontier(w.queue, k)
    requires w.queue[k].id in w.rows && s.id == w.queue[k].id
    requires s == (var row := w.rows[s.id];
                   if s.Approve? then Approve(s.id, row.participant, row.wallet, row.roles, row.expiresAt)
                   else Fund(s.id, row.participant, row.operation))
    requires s.Fund? ==> Matches(w.rows[s.id], w.registry)
    requires AwaitOk(w.(sent := w.sent + [s]), s.id, heard)
    ensures WorldOk(Sends(w, k, s, heard, reply), now)
  {
    hide R.ChainOk, RowsOk, QueueOk, CoreOk, AwaitOk, Fails, Waits;
    SentAdded(w, s, now);
    var w' := w.(sent := w.sent + [s]);
    if reply == SentHeard { WaitsKeeps(w', k, heard, now); } else { FailsKeeps(w', k, now); }
  }

  lemma ReceiptKnown(w: World, tx: nat, now: uint64)
    requires CoreOk(w, now) && tx in w.receipts
    ensures tx < |w.sent| && SentOk(w.sent[tx], w.rows, w.registry, w.receipts[tx])
  {
  }

  lemma ApprovalConfirmedKeeps(w: World, k: nat, row: Row, tx: nat, now: uint64)
    requires CoreOk(w, now) && QueueOk(w.queue, w.running) && Frontier(w.queue, k)
    requires AwaitOk(w, w.queue[k].id, ApprovalReceipt(row, tx)) && tx in w.receipts && w.receipts[tx]
    ensures w.queue[k].id in w.rows && WorldOk(Continues(w, k, ApprovalReceipt(row, tx), Receipt), now)
  {
    hide R.ChainOk, RowsOk, QueueOk, CoreOk;
    var id := w.queue[k].id;
    ReceiptKnown(w, tx, now);
    RowKnown(w, id, now);
    var rows := Approved(ApprovalSubmitted(w.rows, id, tx), id, Some(tx));
    RowUpdated(w, id, rows[id], w.seen, now);
    assert w.(rows := w.rows[id := rows[id]], seen := w.seen) == w.(rows := rows);
    WaitsKeeps(w.(rows := rows), k, Status(rows[id], true, None, None, false), now);
  }

  lemma FundingConfirmedKeeps(w: World, k: nat, row: Row, before: nat, tx: nat, now: uint64)
    requires CoreOk(w, now) && QueueOk(w.queue, w.running) && Frontier(w.queue, k)
    requires AwaitOk(w, w.queue[k].id, FinalBalance(row, before, tx))
    ensures w.queue[k].id in w.rows && WorldOk(Continues(w, k, FinalBalance(row, before, tx), BalanceRead), now)
  {
    hide R.ChainOk, RowsOk, QueueOk, CoreOk;
    var id := w.queue[k].id;
    ReceiptKnown(w, tx, now);
    RowKnown(w, id, now);
    var rows := Funded(FundingSubmitted(w.rows, id, tx), id, Some(tx), Gain(before, Holds(w, row.wallet)));
    RowUpdated(w, id, rows[id], w.seen, now);
    assert w.(rows := w.rows[id := rows[id]], seen := w.seen) == w.(rows := rows);
    SettlesKeeps(w.(rows := rows), k, true, now);
  }

  /** Whatever an await answers, database and chain still agree. */
  lemma ContinuesKeeps(w: World, k: nat, a: Await, reply: Reply, now: uint64)
    requires WorldOk(w, now) && Frontier(w.queue, k) && w.queue[k].phase == Running(a) && w.queue[k].id in w.rows
    ensures WorldOk(Continues(w, k, a, reply), now)
  {
    var id := w.queue[k].id;
    assert AwaitOk(w, id, a);
    RowKnown(w, id, now);
    hide R.ChainOk, RowsOk, QueueOk, CoreOk, Fails, ReadsStatus, Sends, AwaitsOk;
    if reply == Broken {
      FailsKeeps(w, k, now);
    } else if a.Status? {
      if reply == ParticipantRead && a.participant.None? {
        StatusKeeps(w, k, a.(participant := Some(if a.row.participant in w.registry.participants
                                                 then Some(w.registry.participants[a.row.participant]) else None)), now);
      } else if reply == IndexRead && a.index.None? {
        StatusKeeps(w, k, a.(index := Some(Read(w.registry.ids, a.row.wallet, 0))), now);
      } else if reply == BalanceRead && !a.balance {
        StatusKeeps(w, k, a.(balance := true), now);
      }
    } else if a.ApprovalFees? {
      if reply == FeesRead { WaitsKeeps(w, k, SendApproval(a.row), now); }
    } else if a.SendApproval? {
      if reply == SentHeard || reply == SentUnheard {
        SendsKeeps(w, k, Approve(id, a.row.participant, a.row.wallet, a.row.roles, a.row.expiresAt),
                   ApprovalReceipt(a.row, |w.sent|), reply, now);
      }
    } else if a.ApprovalReceipt? {
      if reply == Receipt && a.tx in w.receipts {
        if w.receipts[a.tx] { ApprovalConfirmedKeeps(w, k, a.row, a.tx, now); } else { FailsKeeps(w, k, now); }
      }
    } else {
      FundingContinues(w, k, a, reply, now);
    }
  }

  /** Where an answer leads in chain.fund; any other answer leads nowhere. */
  lemma FundingAnswered(w: World, k: nat, a: Await, reply: Reply)
    requires k < |w.queue| && w.queue[k].id in w.rows && reply != Broken
    ensures var w' := Continues(w, k, a, reply);
            && (a.FundingBalance? ==> w' == if reply == BalanceRead then Waits(w, k, FundingFees(a.row, Holds(w, a.row.wallet))) else w)
            && (a.FundingFees? ==> w' == if reply == FeesRead then Waits(w, k, SendFunding(a.row, a.before)) else w)
            && (a.SendFunding? ==>
                  w' == if reply == SentHeard || reply == SentUnheard
                        then Sends(w, k, Fund(w.queue[k].id, a.row.participant, a.row.operation),
                                   FundingReceipt(a.row, a.before, |w.sent|), reply)
                        else w)
            && (a.FundingReceipt? ==>
                  w' == if reply != Receipt || a.tx !in w.receipts then w
                        else if w.receipts[a.tx] then Waits(w, k, FinalBalance(a.row, a.before, a.tx)) else Fails(w, k))
            && (a.FinalBalance? && reply != BalanceRead ==> w' == w)
  {
    hide Waits, Fails, Sends, Holds;
  }

  lemma FundingSignedKeeps(w: World, k: nat, row: Row, before: nat, reply: Reply, now: uint64)
    requires CoreOk(w, now) && QueueOk(w.queue, w.running) && Frontier(w.queue, k)
    requires AwaitOk(w, w.queue[k].id, SendFunding(row, before)) && (reply == SentHeard || reply == SentUnheard)
    ensures WorldOk(Sends(w, k, Fund(w.queue[k].id, row.participant, row.operation),
                          FundingReceipt(row, before, |w.sent|), reply), now)
  {
    hide CoreOk, QueueOk, WorldOk, Sends;
    SendsKeeps(w, k, Fund(w.queue[k].id, row.participant, row.operation), FundingReceipt(row, before, |w.sent|), reply, now);
  }

  /** The awaits of chain.fund. */
  lemma FundingContinues(w: World, k: nat, a: Await, reply: Reply, now: uint64)
    requires WorldOk(w, now) && CoreOk(w, now) && QueueOk(w.queue, w.running) && Frontier(w.queue, k)
    requires w.queue[k].phase == Running(a) && w.queue[k].id in w.rows && AwaitOk(w, w.queue[k].id, a) && reply != Broken
    requires a.FundingBalance? || a.FundingFees? || a.SendFunding? || a.FundingReceipt? || a.FinalBalance?
    ensures WorldOk(Continues(w, k, a, reply), now)
  {
    hide QueueOk, CoreOk, Fails, Sends, WorldOk, Waits, Holds, Continues;
    FundingAnswered(w, k, a, reply);
    if a.FundingBalance? {
      if reply == BalanceRead { WaitsKeeps(w, k, FundingFees(a.row, Holds(w, a.row.wallet)), now); }
    } else if a.FundingFees? {
      if reply == FeesRead { WaitsKeeps(w, k, SendFunding(a.row, a.before), now); }
    } else if a.SendFunding? {
      if reply == SentHeard || reply == SentUnheard { FundingSignedKeeps(w, k, a.row, a.before, reply, now); }
    } else if a.FundingReceipt? {
      if reply == Receipt && a.tx in w.receipts {
        if w.receipts[a.tx] { WaitsKeeps(w, k, FinalBalance(a.row, a.before, a.tx), now); } else { FailsKeeps(w, k, now); }
      }
    } else if reply == BalanceRead {
      FundingConfirmedKeeps(w, k, a.row, a.before, a.tx, now);
    }
  }

  // The chain

  /** A chain that moved on. */
  lemma ChainMoved(w: World, r: R.Registry, b: D.Book, taken: map<Hash, Taken>, now: uint64)
    requires WorldOk(w, now) && R.ChainOk(r, b, now) && R.Later(w.registry, r)
    requires Solvent(w.others, b.log) && OriginOk(w.rows, r, taken, w.seen)
    ensures WorldOk(w.(registry := r, bank := b, taken := taken), now)
  {
    hide R.ChainOk, QueueOk, Solvent, OriginOk;
    var w' := w.(registry := r, bank := b, taken := taken);
    forall id | id in w'.rows ensures RowOk(w'.rows[id], r) { assert RowOk(w.rows[id], w.registry); }
    forall k | 0 <= k < |w'.queue| && w'.queue[k].phase.Running?
      ensures AwaitOk(w', w'.queue[k].id, w'.queue[k].phase.await)
    {
      assert AwaitOk(w, w.queue[k].id, w.queue[k].phase.await);
    }
  }

  /** Payments only add to what wallets hold. */
  lemma StaysSolvent(others: map<Address, int>, log: seq<D.Transfer>, log': seq<D.Transfer>)
    requires Solvent(others, log) && forall a :: D.PaidToWallet(log, a) <= D.PaidToWallet(log', a)
    ensures Solvent(others, log')
  {
    forall a ensures 0 <= Balance(others, log', a) {
      assert 0 <= Balance(others, log, a);
    }
  }

  lemma RegistryPays(r: R.Registry, r': R.Registry, b: D.Book, b': D.Book, now: uint64, call: R.Call)
    requires R.Apply(r, b, now, call) == Ok((r', b'))
    ensures forall a :: D.PaidToWallet(b.log, a) <= D.PaidToWallet(b'.log, a)
  {
    if call.CallFund? {
      D.LogGrows(b, b', now, D.CallRegisterAndTopUp(call.p, r.participants[call.p].wallet, call.walletBalance,
                                                    call.operation, call.accepts));
      hide D.RegisterAndTopUp;
    }
  }

  /** A registry call adds at most the participant it approves, as it says. */
  lemma NewcomersOnly(r: R.Registry, r': R.Registry, b: D.Book, b': D.Book, now: uint64, call: R.Call)
    requires R.Apply(r, b, now, call) == Ok((r', b'))
    ensures forall p :: p in r'.participants && p !in r.participants ==>
      && call.CallApprove? && call.p == p
      && r'.participants[p] == R.Participant(call.wallet, call.roles, 0, now, call.expiresAt, true, false)
    ensures call.CallApprove? ==> call.p in r'.participants && call.p !in r.participants
  {
    hide D.RegisterAndTopUp;
  }

  /** A call that approves a row's participant only as the row says. */
  ghost predicate OwnCall(w: World, call: R.Call) {
    call.CallApprove? ==> forall id :: id in w.rows && w.rows[id].participant == call.p ==>
      call.wallet == w.rows[id].wallet && call.roles == w.rows[id].roles
  }

  /** Anybody else's approval is noted. */
  predicate ForeignCall(w: World, call: R.Call, taken: map<Hash, Taken>) {
    taken == if call.CallApprove? then w.taken[call.p := Taken(call.wallet, call.roles)] else w.taken
  }

  /** Where approvals come from stays known, whoever makes the next one. */
  lemma OriginAfterCall(w: World, r: R.Registry, b: D.Book, now: uint64, call: R.Call, taken: map<Hash, Taken>)
    requires OriginOk(w.rows, w.registry, w.taken, w.seen) && R.Later(w.registry, r)
    requires R.Apply(w.registry, w.bank, now, call) == Ok((r, b))
    requires (OwnCall(w, call) && taken == w.taken) || ForeignCall(w, call, taken)
    ensures OriginOk(w.rows, r, taken, w.seen)
  {
    hide R.Apply, RowOrigin;
    NewcomersOnly(w.registry, r, w.bank, b, now, call);
    forall id | id in w.rows ensures RowOrigin(w.rows[id], r, taken, id in w.seen) {
      RowOriginAfterCall(w, r, b, now, call, taken, id);
    }
  }

  lemma RowOriginAfterCall(w: World, r: R.Registry, b: D.Book, now: uint64, call: R.Call, taken: map<Hash, Taken>, id: nat)
    requires id in w.rows && RowOrigin(w.rows[id], w.registry, w.taken, id in w.seen) && R.Later(w.registry, r)
    requires R.Apply(w.registry, w.bank, now, call) == Ok((r, b))
    requires (OwnCall(w, call) && taken == w.taken) || ForeignCall(w, call, taken)
    ensures RowOrigin(w.rows[id], r, taken, id in w.seen)
  {
    hide R.Apply;
    NewcomersOnly(w.registry, r, w.bank, b, now, call);
  }

  lemma Receipted(w: World, tx: nat, ok: bool, now: uint64)
    requires WorldOk(w, now) && tx < |w.sent| && tx !in w.receipts
    requires ok ==> Effect(w.sent[tx], w.registry)
    ensures WorldOk(w.(receipts := w.receipts[tx := ok]), now)
  {
    hide R.ChainOk, QueueOk, RowOk, RowsOk;
    var w' := w.(receipts := w.receipts[tx := ok]);
    forall k | 0 <= k < |w'.queue| && w'.queue[k].phase.Running?
      ensures AwaitOk(w', w'.queue[k].id, w'.queue[k].phase.await)
    {
      assert AwaitOk(w, w.queue[k].id, w.queue[k].phase.await);
    }
  }

  lemma RegistryCallKeeps(w: World, r: R.Registry, b: D.Book, now: uint64, call: R.Call, taken: map<Hash, Taken>)
    requires WorldOk(w, now) && R.Apply(w.registry, w.bank, now, call) == Ok((r, b))
    requires (OwnCall(w, call) && taken == w.taken) || ForeignCall(w, call, taken)
    ensures WorldOk(w.(registry := r, bank := b, taken := taken), now) && R.Later(w.registry, r)
  {
    R.ApplyKeeps(w.registry, r, w.bank, b, now, call);
    hide R.ChainOk, QueueOk, AwaitsOk, RowsOk, R.Apply, R.Later, Solvent, OriginOk, RowOk, SentOk;
    RegistryPays(w.registry, r, w.bank, b, now, call);
    StaysSolvent(w.others, w.bank.log, b.log);
    OriginAfterCall(w, r, b, now, call, taken);
    ChainMoved(w, r, b, taken, now);
  }

  /** What a successful transaction leaves on chain. */
  predicate Effect(s: Sent, r: R.Registry) {
    if s.Approve? then
      s.p in r.participants && r.participants[s.p].wallet == s.wallet && r.participants[s.p].approvedRoles == s.roles
    else R.Funded(r, s.p)
  }

  lemma TookEffect(w: World, r: R.Registry, b: D.Book, now: uint64, s: Sent, accepts: bool)
    requires R.Apply(w.registry, w.bank, now, AtRegistry(w, CallOf(s, accepts))) == Ok((r, b))
    ensures Effect(s, r)
  {
    hide D.RegisterAndTopUp;
  }

  lemma OwnApproval(w: World, now: uint64, tx: nat, accepts: bool)
    requires CoreOk(w, now) && tx < |w.sent|
    ensures OwnCall(w, AtRegistry(w, CallOf(w.sent[tx], accepts)))
  {
    assert SentOk(w.sent[tx], w.rows, w.registry, Read(w.receipts, tx, false));
  }

  lemma LandsKeeps(w: World, now: uint64, tx: nat, accepts: bool)
    requires WorldOk(w, now)
    ensures WorldOk(Lands(w, now, tx, accepts), now)
    ensures R.Later(w.registry, Lands(w, now, tx, accepts).registry)
  {
    SameIsLater(w.registry);
    if tx < |w.sent| && tx !in w.receipts {
      OwnApproval(w, now, tx, accepts);
      hide QueueOk, AwaitsOk, R.Apply, R.Later, CoreOk;
      var call := AtRegistry(w, CallOf(w.sent[tx], accepts));
      var result := R.Apply(w.registry, w.bank, now, call);
      if result.Ok? {
        var r, b := result.value.0, result.value.1;
        RegistryCallKeeps(w, r, b, now, call, w.taken);
        TookEffect(w, r, b, now, w.sent[tx], accepts);
        assert w.(registry := r, bank := b, taken := w.taken) == w.(registry := r, bank := b);
        Receipted(w.(registry := r, bank := b), tx, true, now);
      } else {
        Receipted(w, tx, false, now);
      }
    }
  }

  lemma SameIsLater(r: R.Registry)
    ensures R.Later(r, r)
  {
  }

  lemma LaterClock(w: World, before: uint64, now: uint64)
    requires WorldOk(w, before) && before <= now
    ensures WorldOk(w, now)
  {
  }

  lemma BankCallKeeps(w: World, b: D.Book, now: uint64, call: D.Call)
    requires WorldOk(w, now) && D.Apply(w.bank, now, call) == Ok(b)
    ensures WorldOk(w.(bank := b), now)
  {
    R.DistributorCallKeeps(w.registry, w.bank, b, now, call);
    D.LogGrows(w.bank, b, now, call);
    hide R.ChainOk, QueueOk, D.Apply, Solvent, OriginOk;
    StaysSolvent(w.others, w.bank.log, b.log);
    SameIsLater(w.registry);
    ChainMoved(w, w.registry, b, w.taken, now);
    assert w.(registry := w.registry, bank := b, taken := w.taken) == w.(bank := b);
  }

  lemma MoveKeeps(w: World, now: uint64, account: Address, amount: int)
    requires WorldOk(w, now) && Holds(w, account) + amount >= 0
    ensures WorldOk(w.(others := w.others[account := Read(w.others, account, 0) + amount]), now)
  {
    var w' := w.(others := w.others[account := Read(w.others, account, 0) + amount]);
    forall a ensures 0 <= Balance(w'.others, w.bank.log, a) {
      assert 0 <= Balance(w.others, w.bank.log, a);
    }
    hide R.ChainOk, QueueOk, RowOk, RowsOk, OriginOk, Solvent, SentOk;
    forall k | 0 <= k < |w'.queue| && w'.queue[k].phase.Running?
      ensures AwaitOk(w', w'.queue[k].id, w'.queue[k].phase.await)
    {
      assert AwaitOk(w, w.queue[k].id, w.queue[k].phase.await);
    }
  }

  lemma InvitationKeeps(w: World, invitations: map<nat, Invitation>, now: uint64)
    requires WorldOk(w, now)
    requires forall id :: id in w.invitations && w.invitations[id].wallet != 0 ==>
      id in invitations && invitations[id] == w.invitations[id]
    ensures WorldOk(w.(invitations := invitations), now)
  {
    hide R.ChainOk, QueueOk, RowOk;
    var w' := w.(invitations := invitations);
    forall k | 0 <= k < |w'.queue| && w'.queue[k].phase.Running?
      ensures AwaitOk(w', w'.queue[k].id, w'.queue[k].phase.await)
    {
      assert AwaitOk(w, w.queue[k].id, w.queue[k].phase.await);
    }
  }

  lemma MemoryKeeps(w: World, queue: seq<Job>, running: map<nat, nat>, now: uint64)
    requires WorldOk(w, now) && QueueOk(queue, running)
    requires forall k :: 0 <= k < |queue| && queue[k].phase.Running? ==> k < |w.queue| && queue[k] == w.queue[k]
    ensures WorldOk(w.(queue := queue, running := running), now)
  {
    hide R.ChainOk, RowOk, RowsOk, QueueOk;
    var w' := w.(queue := queue, running := running);
    forall k | 0 <= k < |w'.queue| && w'.queue[k].phase.Running?
      ensures AwaitOk(w', w'.queue[k].id, w'.queue[k].phase.await)
    {
      assert AwaitOk(w, w.queue[k].id, w.queue[k].phase.await);
    }
  }

  lemma JobStepKeeps(w: World, now: uint64, e: Event)
    requires WorldOk(w, now) && (e.Begin? || e.Answer?)
    ensures WorldOk(Step(w, now, e), now)
  {
    hide CoreOk, QueueOk, AwaitsOk, Begins, Continues, Fresh;
    if Step(w, now, e) != w {
      BeginsAtFrontier(w.queue, w.running, e.k);
      hide Frontier;
      if e.Begin? {
        BeginsKeeps(w, e.k, e.p, e.operation, e.expiresAt, now);
      } else {
        ContinuesKeeps(w, e.k, w.queue[e.k].phase.await, e.reply, now);
      }
    }
  }

  lemma OutsideStepKeeps(w: World, now: uint64, e: Event)
    requires WorldOk(w, now) && (e.RegistryCall? || e.BankCall?)
    ensures WorldOk(Step(w, now, e), now) && R.Later(w.registry, Step(w, now, e).registry)
  {
    hide CoreOk, QueueOk, AwaitsOk, R.Apply, D.Apply, R.Later;
    SameIsLater(w.registry);
    if Step(w, now, e) != w {
      if e.RegistryCall? {
        var call := AtRegistry(w, e.call);
        var result := R.Apply(w.registry, w.bank, now, call);
        RegistryCallKeeps(w, result.value.0, result.value.1, now, call, Step(w, now, e).taken);
      } else {
        BankCallKeeps(w, D.Apply(w.bank, now, AtBank(w, e.order)).value, now, AtBank(w, e.order));
      }
    }
  }

  lemma RequestKeeps(w: World, now: uint64, id: nat)
    requires WorldOk(w, now)
    ensures WorldOk(Requested(w, id), now)
  {
    hide CoreOk, AwaitsOk;
    RequestKeepsQueue(w, id);
    hide QueueOk;
    MemoryKeeps(w, Requested(w, id).queue, Requested(w, id).running, now);
  }

  /** Every step keeps database, chain, signed transactions and queue in agreement. */
  lemma StepKeeps(w: World, before: uint64, now: uint64, e: Event)
    requires WorldOk(w, before) && before <= now
    ensures WorldOk(Step(w, now, e), now)
  {
    hide WorldOk, R.Later;
    LaterClock(w, before, now);
    hide Lands;
    if e.Begin? || e.Answer? {
      JobStepKeeps(w, now, e);
    } else if e.Land? {
      LandsKeeps(w, now, e.tx, e.accepts);
    } else if e.RegistryCall? || e.BankCall? {
      OutsideStepKeeps(w, now, e);
    } else if e.Moves? {
      if Step(w, now, e) != w { MoveKeeps(w, now, e.account, e.amount); }
    } else if e.Process? {
      RequestKeeps(w, now, e.id);
    } else if e.Crash? {
      MemoryKeeps(w, [], map[], now);
    } else {
      InvitationKeeps(w, Step(w, now, e).invitations, now);
    }
  }
}
