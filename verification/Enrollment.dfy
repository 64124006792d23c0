/**
 The enrollment operator between a database and a chain. Every await of its process is a separate
 step, so anything can happen in between: other calls, other approvers and registrars, a transaction that lands
 late or never, a receipt that is lost, or a crash that forgets everything but the database.
 */
module Enrollment {
  import opened Common
  import opened EnrollmentStore
  import R = RegistryRules
  import D = DistributorRules

  /** A claimed invitation; wallet 0 stands for one that is not claimed yet. */
  datatype Invitation = Invitation(wallet: Address, roles: bv8)

  /** A transaction the operator signed for an invitation. */
  datatype Sent = Approve(id: nat, p: Hash, wallet: Address, roles: bv8, expiresAt: uint64)
                | Fund(id: nat, p: Hash, operation: Hash)

  /**
   What one run of the process is waiting for; row is its local copy of the enrollment, before the
   wallet's balance read ahead of the funding. Status waits for three reads at once.
   */
  datatype Await =
    | Status(row: Row, again: bool, participant: Option<Option<R.Participant>>, index: Option<Hash>, balance: bool)
    | ApprovalFees(row: Row)
    | SendApproval(row: Row)
    | ApprovalReceipt(row: Row, tx: nat)
    | FundingBalance(row: Row)
    | FundingFees(row: Row, before: nat)
    | SendFunding(row: Row, before: nat)
    | FundingReceipt(row: Row, before: nat, tx: nat)
    | FinalBalance(row: Row, before: nat, tx: nat)

  datatype Progress = Waiting | Running(await: Await) | Settled(ok: bool)

  /** One promise of the transaction queue. */
  datatype Job = Job(id: nat, phase: Progress)

  /** A participant id approved by somebody else, and for whom. */
  datatype Taken = Taken(wallet: Address, roles: bv8)

  /**
   Database, chain (with all signed transactions and their receipts), and the operator's memory. others is
   what a wallet holds apart from the distributor's payments. taken and seen are history: approvals by
   others, and the invitations for which a process acted on an approval it found.
   */
  datatype World = World(invitations: map<nat, Invitation>, rows: Table, registry: R.Registry, bank: D.Book,
                         others: map<Address, int>, sent: seq<Sent>, receipts: map<nat, bool>,
                         queue: seq<Job>, running: map<nat, nat>, taken: map<Hash, Taken>, seen: set<nat>)

  const GENESIS := World(map[], map[], R.DEPLOYED, D.Deployed(0), map[], [], map[], [], map[], map[], {})

  /** How an await ends. Broken: an error or a timeout; SentUnheard: the transaction left, its hash never came back. */
  datatype Reply = ParticipantRead | IndexRead | BalanceRead | FeesRead | SentHeard | SentUnheard | Receipt | Broken

  /** Moves: a wallet's balance changes for any reason other than the distributor. */
  datatype Event =
    | Invite(id: nat, roles: bv8)
    | Claim(id: nat, wallet: Address)
    | Process(id: nat)
    | Begin(k: nat, p: Hash, operation: Hash, expiresAt: uint64)
    | Answer(k: nat, reply: Reply)
    | Land(tx: nat, accepts: bool)
    | Crash
    | RegistryCall(call: R.Call)
    | BankCall(order: D.Call)
    | Moves(account: Address, amount: int)

  function Balance(others: map<Address, int>, log: seq<D.Transfer>, a: Address): int {
    Read(others, a, 0) + D.PaidToWallet(log, a)
  }

  function Holds(w: World, a: Address): nat {
    var balance := Balance(w.others, w.bank.log, a);
    if balance < 0 then 0 else balance
  }

  function Gain(before: nat, after: nat): nat { if after > before then after - before else 0 }

  // The operator

  /** process: a second call joins the run in progress. */
  function Requested(w: World, id: nat): World {
    if id in w.running then w
    else w.(queue := w.queue + [Job(id, Waiting)], running := w.running[id := |w.queue|])
  }

  function Waits(w: World, k: nat, a: Await): World
    requires k < |w.queue|
  {
    w.(queue := w.queue[k := w.queue[k].(phase := Running(a))])
  }

  /** A promise settles; either way the next one may begin. */
  function Settles(w: World, k: nat, ok: bool): World
    requires k < |w.queue|
  {
    w.(queue := w.queue[k := w.queue[k].(phase := Settled(ok))], running := w.running - {w.queue[k].id})
  }

  /** The catch clause: record the failure under the phase the row is in. */
  function Fails(w: World, k: nat): World
    requires k < |w.queue|
  {
    var id := w.queue[k].id;
    var funding := id in w.rows && InFundingPhase(w.rows[id].state);
    Settles(w.(rows := Failed(w.rows, id, funding)), k, false)
  }

  /** #process up to its first await. */
  function Begins(w: World, k: nat, p: Hash, operation: Hash, expiresAt: uint64): World
    requires k < |w.queue|
  {
    var id := w.queue[k].id;
    if id !in w.invitations || w.invitations[id].wallet == 0 then Settles(w, k, false)
    else
      var invitation := w.invitations[id];
      var rows := Created(w.rows, id, p, operation, invitation.wallet, invitation.roles, expiresAt);
      var row := rows[id];
      var w' := w.(rows := rows);
      if row.wallet != invitation.wallet || row.roles != invitation.roles then Settles(w', k, false)
      else if row.state == FUNDED then Settles(w', k, true)
      else Waits(w', k, Status(row, false, None, None, false))
  }

  /** With the approval known to match, fund or record the funding. */
  function Approved2(w: World, k: nat, row: Row, p: Option<R.Participant>): World
    requires k < |w.queue|
  {
    if p.None? || p.value.wallet != row.wallet || p.value.approvedRoles != row.roles || !p.value.active then
      Settles(w, k, false)
    else if !p.value.initialFundingCompleted then Waits(w, k, FundingBalance(row))
    else Settles(w.(rows := Funded(w.rows, w.queue[k].id, row.fundingTx, 0)), k, true)
  }

  /** With all chain reads in hand. */
  function Decides(w: World, k: nat, row: Row, again: bool, p: Option<R.Participant>, index: Hash): World
    requires k < |w.queue| && w.queue[k].id in w.rows
  {
    var id := w.queue[k].id;
    if again then Approved2(w, k, row, p)
    else if index != 0 && index != row.participant then Settles(w, k, false)
    else if p.None? then Waits(w, k, ApprovalFees(row))
    else
      var found := w.(seen := w.seen + {id});
      if !InFundingPhase(row.state) then
        var w' := found.(rows := Approved(w.rows, id, row.approvalTx));
        Approved2(w', k, w'.rows[id], p)
      else Approved2(found, k, row, p)
  }

  function ReadsStatus(w: World, k: nat, a: Await): World
    requires k < |w.queue| && w.queue[k].id in w.rows && a.Status?
  {
    if a.participant.Some? && a.index.Some? && a.balance then Decides(w, k, a.row, a.again, a.participant.value, a.index.value)
    else Waits(w, k, a)
  }

  function Sends(w: World, k: nat, s: Sent, heard: Await, reply: Reply): World
    requires k < |w.queue|
  {
    var w' := w.(sent := w.sent + [s]);
    if reply == SentHeard then Waits(w', k, heard) else Fails(w', k)
  }

  /** The process continues after an await; an answer that does not fit what it waits for is no step. */
  function Continues(w: World, k: nat, a: Await, reply: Reply): World
    requires k < |w.queue| && w.queue[k].id in w.rows
  {
    var id := w.queue[k].id;
    if reply == Broken then Fails(w, k)
    else
      match a
      case Status(row, again, participant, index, balance) =>
        if reply == ParticipantRead && participant.None? then
          ReadsStatus(w, k, a.(participant := Some(if row.participant in w.registry.participants
                                                   then Some(w.registry.participants[row.participant]) else None)))
        else if reply == IndexRead && index.None? then ReadsStatus(w, k, a.(index := Some(Read(w.registry.ids, row.wallet, 0))))
        else if reply == BalanceRead && !balance then ReadsStatus(w, k, a.(balance := true))
        else w
      case ApprovalFees(row) => if reply == FeesRead then Waits(w, k, SendApproval(row)) else w
      case SendApproval(row) =>
        if reply == SentHeard || reply == SentUnheard then
          Sends(w, k, Approve(id, row.participant, row.wallet, row.roles, row.expiresAt),
                ApprovalReceipt(row, |w.sent|), reply)
        else w
      case ApprovalReceipt(row, tx) =>
        if reply != Receipt || tx !in w.receipts then w
        else if !w.receipts[tx] then Fails(w, k)
        else
          var w' := w.(rows := Approved(ApprovalSubmitted(w.rows, id, tx), id, Some(tx)));
          Waits(w', k, Status(w'.rows[id], true, None, None, false))
      case FundingBalance(row) =>
        if reply == BalanceRead then Waits(w, k, FundingFees(row, Holds(w, row.wallet))) else w
      case FundingFees(row, before) => if reply == FeesRead then Waits(w, k, SendFunding(row, before)) else w
      case SendFunding(row, before) =>
        if reply == SentHeard || reply == SentUnheard then
          Sends(w, k, Fund(id, row.participant, row.operation), FundingReceipt(row, before, |w.sent|), reply)
        else w
      case FundingReceipt(row, before, tx) =>
        if reply != Receipt || tx !in w.receipts then w
        else if !w.receipts[tx] then Fails(w, k)
        else Waits(w, k, FinalBalance(row, before, tx))
      case FinalBalance(row, before, tx) =>
        if reply != BalanceRead then w
        else
          var amount := Gain(before, Holds(w, row.wallet));
          Settles(w.(rows := Funded(FundingSubmitted(w.rows, id, tx), id, Some(tx), amount)), k, true)
  }

  // The chain

  /** A call meets the balance the wallet has then. */
  function AtRegistry(w: World, call: R.Call): R.Call {
    if call.CallFund? && call.p in w.registry.participants then
      call.(walletBalance := Holds(w, w.registry.participants[call.p].wallet))
    else call
  }

  function AtBank(w: World, order: D.Call): D.Call {
    if order.CallRegisterAndTopUp? || order.CallTopUp? then order.(walletBalance := Holds(w, order.wallet)) else order
  }

  function CallOf(s: Sent, accepts: bool): R.Call {
    match s
    case Approve(_, p, wallet, roles, expiresAt) => R.CallApprove(p, wallet, roles, expiresAt)
    case Fund(_, p, operation) => R.CallFund(p, operation, 0, accepts)
  }

  /** A signed transaction is included, once, and succeeds or reverts. */
  function Lands(w: World, now: uint64, tx: nat, accepts: bool): World {
    if tx >= |w.sent| || tx in w.receipts then w
    else
      match R.Apply(w.registry, w.bank, now, AtRegistry(w, CallOf(w.sent[tx], accepts)))
      case Ok((r, b)) => w.(registry := r, bank := b, receipts := w.receipts[tx := true])
      case Revert(_) => w.(receipts := w.receipts[tx := false])
  }

  /** Somebody else's registry call. */
  function Intervenes(w: World, now: uint64, call: R.Call): World {
    match R.Apply(w.registry, w.bank, now, AtRegistry(w, call))
    case Ok((r, b)) =>
      w.(registry := r, bank := b,
         taken := if call.CallApprove? then w.taken[call.p := Taken(call.wallet, call.roles)] else w.taken)
    case Revert(_) => w
  }

  /** Identifiers are drawn at random: never zero, never met before. */
  predicate Fresh(w: World, p: Hash, operation: Hash) {
    && p != 0 && operation != 0 && p !in w.registry.participants
    && forall id :: id in w.rows ==> w.rows[id].participant != p
  }

  /** One step of the whole system; an event that is not possible changes nothing. */
  function Step(w: World, now: uint64, e: Event): World {
    match e
    case Invite(id, roles) =>
      if id in w.invitations then w else w.(invitations := w.invitations[id := Invitation(0, roles)])
    case Claim(id, wallet) =>
      if id !in w.invitations || w.invitations[id].wallet != 0 then w
      else w.(invitations := w.invitations[id := w.invitations[id].(wallet := wallet)])
    case Process(id) => Requested(w, id)
    case Begin(k, p, operation, expiresAt) =>
      if k < |w.queue| && w.queue[k].phase == Waiting && (k == 0 || w.queue[k - 1].phase.Settled?)
         && Fresh(w, p, operation) then
        Begins(w, k, p, operation, expiresAt)
      else w
    case Answer(k, reply) =>
      if k < |w.queue| && w.queue[k].phase.Running? && w.queue[k].id in w.rows then
        Continues(w, k, w.queue[k].phase.await, reply)
      else w
    case Land(tx, accepts) => Lands(w, now, tx, accepts)
    case Crash => w.(queue := [], running := map[])
    case RegistryCall(call) => Intervenes(w, now, call)
    case BankCall(order) =>
      (match D.Apply(w.bank, now, AtBank(w, order))
       case Ok(b) => w.(bank := b)
       case Revert(_) => w)
    case Moves(account, amount) =>
      if Holds(w, account) + amount < 0 then w
      else w.(others := w.others[account := Read(w.others, account, 0) + amount])
  }
}
