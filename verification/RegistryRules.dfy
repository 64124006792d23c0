/**
 The participant registry's rules. approvals and fundings are the history of its two events;
 fundInitial changes the registry and the distributor together or not at all.
 */
module RegistryRules {
  import opened Common
  import D = DistributorRules

  const USER_ROLE: bv8 := 1
  const CREATOR_ROLE: bv8 := 2
  const ALL_ROLES: bv8 := USER_ROLE | CREATOR_ROLE

  datatype Participant = Participant(wallet: Address, approvedRoles: bv8, registeredRoles: bv8, approvedAt: uint64,
                                     approvalExpiresAt: uint64, active: bool, initialFundingCompleted: bool)

  datatype Entry = Entry(participant: Hash, wallet: Address)

  datatype Registry = Registry(participants: map<Hash, Participant>, ids: map<Address, Hash>,
                               consents: map<(Hash, bv8), Hash>, paused: bool,
                               approvals: seq<Entry>, fundings: seq<Entry>)

  const DEPLOYED := Registry(map[], map[], map[], false, [], [])

  datatype Error =
    | InvalidAddress | InvalidIdentifier | InvalidRoles | InvalidExpiry | ParticipantAlreadyApproved
    | WalletAlreadyApproved | ParticipantNotApproved | ParticipantInactive | ApprovalExpired | RoleNotApproved
    | RoleAlreadyRegistered | WalletMismatch | InitialFundingAlreadyCompleted | EnforcedPause | ExpectedPause
    | DistributorRejected(error: D.Error)

  predicate SingleRole(role: bv8) { role == USER_ROLE || role == CREATOR_ROLE }

  function ApproveClaimedInvitation(r: Registry, now: uint64, p: Hash, wallet: Address, roles: bv8, expiresAt: uint64)
    : Result<Registry, Error>
  {
    if r.paused then Revert(EnforcedPause)
    else if p == 0 then Revert(InvalidIdentifier)
    else if wallet == 0 then Revert(InvalidAddress)
    else if roles == 0 || roles & !ALL_ROLES != 0 then Revert(InvalidRoles)
    else if expiresAt <= now then Revert(InvalidExpiry)
    else if p in r.participants then Revert(ParticipantAlreadyApproved)
    else if wallet in r.ids then Revert(WalletAlreadyApproved)
    else
      Ok(r.(participants := r.participants[p := Participant(wallet, roles, 0, now, expiresAt, true, false)],
            ids := r.ids[wallet := p], approvals := r.approvals + [Entry(p, wallet)]))
  }

  /** _activeApproval: why p may not act now, if it may not. */
  function ApprovalBar(r: Registry, now: uint64, p: Hash): Option<Error> {
    if p !in r.participants then Some(ParticipantNotApproved)
    else if !r.participants[p].active then Some(ParticipantInactive)
    else if r.participants[p].registeredRoles == 0 && r.participants[p].approvalExpiresAt < now then Some(ApprovalExpired)
    else None
  }

  /** The registry after a completed funding. */
  function WithFunding(r: Registry, p: Hash): Registry
    requires p in r.participants
  {
    r.(participants := r.participants[p := r.participants[p].(initialFundingCompleted := true)],
       fundings := r.fundings + [Entry(p, r.participants[p].wallet)])
  }

  function FundInitial(r: Registry, b: D.Book, now: uint64, p: Hash, operation: Hash, walletBalance: nat, accepts: bool)
    : Result<(Registry, D.Book), Error>
  {
    if r.paused then Revert(EnforcedPause)
    else if operation == 0 then Revert(InvalidIdentifier)
    else
      match ApprovalBar(r, now, p)
      case Some(e) => Revert(e)
      case None =>
        var participant := r.participants[p];
        if participant.initialFundingCompleted then Revert(InitialFundingAlreadyCompleted)
        else
          match D.RegisterAndTopUp(b, now, p, participant.wallet, walletBalance, operation, accepts)
          case Revert(e) => Revert(DistributorRejected(e))
          case Ok(b') => Ok((WithFunding(r, p), b'))
  }

  function RegisterSelf(r: Registry, now: uint64, sender: Address, role: bv8, consent: Hash): Result<Registry, Error> {
    if r.paused then Revert(EnforcedPause)
    else if !SingleRole(role) || consent == 0 then Revert(InvalidRoles)
    else if sender !in r.ids then Revert(ParticipantNotApproved)
    else
      var p := r.ids[sender];
      match ApprovalBar(r, now, p)
      case Some(e) => Revert(e)
      case None =>
        var participant := r.participants[p];
        if participant.wallet != sender then Revert(WalletMismatch)
        else if participant.approvedRoles & role == 0 then Revert(RoleNotApproved)
        else if participant.registeredRoles & role != 0 then Revert(RoleAlreadyRegistered)
        else
          Ok(r.(participants := r.participants[p := participant.(registeredRoles := participant.registeredRoles | role)],
                consents := r.consents[(p, role) := consent]))
  }

  function SetParticipantActive(r: Registry, p: Hash, active: bool): Result<Registry, Error> {
    if p !in r.participants then Revert(ParticipantNotApproved)
    else Ok(r.(participants := r.participants[p := r.participants[p].(active := active)]))
  }

  function SetPaused(r: Registry, paused: bool): Result<Registry, Error> {
    if r.paused == paused then Revert(if paused then EnforcedPause else ExpectedPause) else Ok(r.(paused := paused))
  }

  datatype Call =
    | CallApprove(p: Hash, wallet: Address, roles: bv8, expiresAt: uint64)
    | CallFund(p: Hash, operation: Hash, walletBalance: nat, accepts: bool)
    | CallRegisterSelf(sender: Address, role: bv8, consent: Hash)
    | CallSetActive(p: Hash, active: bool)
    | CallPause(paused: bool)

  function WithBook(r: Result<Registry, Error>, b: D.Book): Result<(Registry, D.Book), Error> {
    match r
    case Revert(e) => Revert(e)
    case Ok(r') => Ok((r', b))
  }

  function Apply(r: Registry, b: D.Book, now: uint64, call: Call): Result<(Registry, D.Book), Error> {
    match call
    case CallApprove(p, wallet, roles, expiresAt) =>
      WithBook(ApproveClaimedInvitation(r, now, p, wallet, roles, expiresAt), b)
    case CallFund(p, operation, walletBalance, accepts) => FundInitial(r, b, now, p, operation, walletBalance, accepts)
    case CallRegisterSelf(sender, role, consent) => WithBook(RegisterSelf(r, now, sender, role, consent), b)
    case CallSetActive(p, active) => WithBook(SetParticipantActive(r, p, active), b)
    case CallPause(paused) => WithBook(SetPaused(r, paused), b)
  }

  // What every call keeps

  function Times(entries: seq<Entry>, p: Hash): nat {
    if entries == [] then 0
    else Times(entries[..|entries| - 1], p) + if entries[|entries| - 1].participant == p then 1 else 0
  }

  predicate Funded(r: Registry, p: Hash) { p in r.participants && r.participants[p].initialFundingCompleted }

  ghost predicate WalletsOk(r: Registry) {
    && 0 !in r.participants
    && (forall p :: p in r.participants ==> r.participants[p].wallet in r.ids && r.ids[r.participants[p].wallet] == p)
    && (forall w :: w in r.ids ==> w != 0 && r.ids[w] in r.participants && r.participants[r.ids[w]].wallet == w)
  }

  /** The event history says exactly who is approved and funded, once each and with which wallet. */
  ghost predicate HistoryOk(r: Registry) {
    && (forall p :: Times(r.approvals, p) == if p in r.participants then 1 else 0)
    && (forall p :: Times(r.fundings, p) == if Funded(r, p) then 1 else 0)
    && forall e :: e in r.approvals || e in r.fundings ==>
      e.participant in r.participants && r.participants[e.participant].wallet == e.wallet
  }

  /** Only approved roles are ever registered, each with the consent version it was accepted under. */
  ghost predicate RolesOk(r: Registry) {
    forall p :: p in r.participants ==>
      var v := r.participants[p];
      && v.approvedRoles != 0 && v.approvedRoles & !ALL_ROLES == 0 && v.registeredRoles & !v.approvedRoles == 0
      && (v.registeredRoles & USER_ROLE != 0 ==> Read(r.consents, (p, USER_ROLE), 0) != 0)
      && (v.registeredRoles & CREATOR_ROLE != 0 ==> Read(r.consents, (p, CREATOR_ROLE), 0) != 0)
  }

  /** Whom the registry has funded the distributor knows with the same wallet; others may have registered more. */
  ghost predicate BooksAgree(r: Registry, b: D.Book) {
    forall p :: Funded(r, p) ==> p in b.profiles && b.profiles[p].wallet == r.participants[p].wallet
  }

  ghost predicate ChainOk(r: Registry, b: D.Book, now: uint64) {
    WalletsOk(r) && HistoryOk(r) && RolesOk(r) && BooksAgree(r, b) && D.BookOk(b, now)
  }

  /** Approvals are for ever: wallet, roles and expiry never change, nor does completed funding. */
  ghost predicate Later(r: Registry, r': Registry) {
    forall p :: p in r.participants ==>
      && p in r'.participants
      && var (a, b) := (r.participants[p], r'.participants[p]);
         && b == a.(registeredRoles := b.registeredRoles, active := b.active,
                    initialFundingCompleted := b.initialFundingCompleted)
         && (a.initialFundingCompleted ==> b.initialFundingCompleted)
  }

  /** A new approval enters the tables and the history once. */
  lemma NewParticipant(r: Registry, p: Hash, v: Participant, r': Registry)
    requires WalletsOk(r) && p != 0 && v.wallet != 0 && p !in r.participants && v.wallet !in r.ids
    requires r' == r.(participants := r.participants[p := v], ids := r.ids[v.wallet := p],
                      approvals := r.approvals + [Entry(p, v.wallet)])
    ensures WalletsOk(r')
  {
  }

  lemma NewParticipantHistory(r: Registry, p: Hash, v: Participant, r': Registry)
    requires HistoryOk(r) && p !in r.participants && !v.initialFundingCompleted
    requires r' == r.(participants := r.participants[p := v], ids := r'.ids,
                      approvals := r.approvals + [Entry(p, v.wallet)])
    ensures HistoryOk(r')
  {
  }

  lemma ApprovalKeeps(r: Registry, r': Registry, b: D.Book, now: uint64, call: Call)
    requires ChainOk(r, b, now) && call.CallApprove?
    requires ApproveClaimedInvitation(r, now, call.p, call.wallet, call.roles, call.expiresAt) == Ok(r')
    ensures ChainOk(r', b, now)
  {
    hide D.BookOk, WalletsOk, HistoryOk;
    NewParticipant(r, call.p, r'.participants[call.p], r');
    NewParticipantHistory(r, call.p, r'.participants[call.p], r');
    assert forall p :: Funded(r', p) == Funded(r, p);
  }

  lemma FundingHistory(r: Registry, p: Hash)
    requires HistoryOk(r) && p in r.participants && !Funded(r, p)
    ensures HistoryOk(WithFunding(r, p))
  {
  }

  lemma FundingWallets(r: Registry, p: Hash)
    requires WalletsOk(r) && p in r.participants
    ensures WalletsOk(WithFunding(r, p))
    ensures RolesOk(r) ==> RolesOk(WithFunding(r, p))
  {
  }

  lemma FundingBooks(r: Registry, b: D.Book, b': D.Book, p: Hash, now: uint64)
    requires BooksAgree(r, b) && p in r.participants
    requires b'.profiles == b.profiles[p := D.Profile(r.participants[p].wallet, now, true)]
    ensures BooksAgree(WithFunding(r, p), b')
  {
  }

  lemma FundingKeeps(r: Registry, r': Registry, b: D.Book, b': D.Book, now: uint64, call: Call)
    requires ChainOk(r, b, now) && call.CallFund?
    requires FundInitial(r, b, now, call.p, call.operation, call.walletBalance, call.accepts) == Ok((r', b'))
    ensures ChainOk(r', b', now)
  {
    hide D.BookOk, WalletsOk, HistoryOk, BooksAgree, RolesOk, D.RegisterAndTopUp;
    var wallet := r.participants[call.p].wallet;
    D.RegisterKeeps(b, b', now, call.p, wallet, call.walletBalance, call.operation, call.accepts);
    RegisteredProfile(b, b', now, call.p, wallet, call.walletBalance, call.operation, call.accepts);
    assert r' == WithFunding(r, call.p);
    FundingHistory(r, call.p);
    FundingWallets(r, call.p);
    FundingBooks(r, b, b', call.p, now);
  }

  lemma RegisteredProfile(b: D.Book, b': D.Book, now: uint64, p: Hash, wallet: Address, walletBalance: nat,
                          operation: Hash, accepts: bool)
    requires D.RegisterAndTopUp(b, now, p, wallet, walletBalance, operation, accepts) == Ok(b')
    ensures p !in b.profiles && b'.profiles == b.profiles[p := D.Profile(wallet, now, true)]
  {
  }

  lemma ProfileEditKeeps(r: Registry, r': Registry, b: D.Book, now: uint64)
    requires ChainOk(r, b, now) && r'.ids == r.ids && r'.approvals == r.approvals && r'.fundings == r.fundings
    requires r'.participants.Keys == r.participants.Keys && Later(r, r') && RolesOk(r')
    requires forall p :: Funded(r', p) == Funded(r, p)
    ensures ChainOk(r', b, now)
  {
    hide D.BookOk;
  }

  lemma RolesStay(r: Registry, r': Registry, b: D.Book, now: uint64, call: Call)
    requires ChainOk(r, b, now) && !call.CallApprove? && !call.CallFund? && Apply(r, b, now, call) == Ok((r', b))
    ensures RolesOk(r')
  {
    hide WalletsOk, HistoryOk, BooksAgree, D.BookOk;
    if call.CallRegisterSelf? {
      var v := r.participants[r.ids[call.sender]];
      RoleAdded(v.registeredRoles, v.approvedRoles, call.role);
    }
  }

  lemma RoleAdded(registered: bv8, approved: bv8, role: bv8)
    requires SingleRole(role) && approved & role != 0 && registered & !approved == 0
    ensures (registered | role) & !approved == 0
    ensures (registered | role) & USER_ROLE != 0 <==> registered & USER_ROLE != 0 || role == USER_ROLE
    ensures (registered | role) & CREATOR_ROLE != 0 <==> registered & CREATOR_ROLE != 0 || role == CREATOR_ROLE
  {
  }

  lemma ApplyKeeps(r: Registry, r': Registry, b: D.Book, b': D.Book, now: uint64, call: Call)
    requires ChainOk(r, b, now) && Apply(r, b, now, call) == Ok((r', b'))
    ensures ChainOk(r', b', now) && Later(r, r')
  {
    hide ChainOk, D.RegisterAndTopUp, RolesOk;
    if call.CallApprove? {
      ApprovalKeeps(r, r', b, now, call);
    } else if call.CallFund? {
      FundingKeeps(r, r', b, b', now, call);
    } else {
      RolesStay(r, r', b, now, call);
      ProfileEditKeeps(r, r', b, now);
    }
  }

  lemma LaterClock(r: Registry, b: D.Book, before: uint64, now: uint64)
    requires ChainOk(r, b, before) && before <= now
    ensures ChainOk(r, b, now)
  {
  }

  lemma LaterTransitive(a: Registry, b: Registry, c: Registry)
    requires Later(a, b) && Later(b, c)
    ensures Later(a, c)
  {
  }

  /** No distributor call, registrations by others included, touches what the registry relies on. */
  lemma DistributorCallKeeps(r: Registry, b: D.Book, b': D.Book, now: uint64, call: D.Call)
    requires ChainOk(r, b, now) && D.Apply(b, now, call) == Ok(b')
    ensures ChainOk(r, b', now)
  {
    hide D.BookOk, WalletsOk, HistoryOk, RolesOk;
    D.ApplyKeeps(b, b', now, now, call);
    D.ProfilesStay(b, b', now, call);
    hide D.Apply;
  }
}
