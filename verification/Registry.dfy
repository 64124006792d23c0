/** The participant registry as it runs, holding the distributor it funds people from. */
module Registry {
  import opened Common
  import opened RegistryRules
  import D = DistributorRules
  import Pol = Distributor

  datatype Failure = Success | Failed(error: Error)

  ghost predicate Follows(rule: Result<(RegistryRules.Registry, D.Book), Error>, failure: Failure,
                          before: RegistryRules.Registry, bookBefore: D.Book,
                          after: RegistryRules.Registry, bookAfter: D.Book) {
    match rule
    case Ok((r, b)) => failure == Success && after == r && bookAfter == b
    case Revert(e) => failure == Failed(e) && after == before && bookAfter == bookBefore
  }

  class Registry {
    const distributor: Pol.Distributor
    var participants: map<Hash, Participant>
    var participantIdByWallet: map<Address, Hash>
    var consentVersions: map<(Hash, bv8), Hash>
    var paused: bool
    ghost var approvals: seq<Entry>
    ghost var fundings: seq<Entry>

    ghost function State(): RegistryRules.Registry
      reads this
    {
      RegistryRules.Registry.Registry(participants, participantIdByWallet, consentVersions, paused, approvals, fundings)
    }

    ghost predicate Valid(now: uint64)
      reads this, distributor
    {
      distributor.Valid(now) && ChainOk(State(), distributor.State(), now)
    }

    ghost function Rule(now: uint64, call: Call): Result<(RegistryRules.Registry, D.Book), Error>
      reads this, distributor
    {
      Apply(State(), distributor.State(), now, call)
    }

    constructor (now: uint64, d: Pol.Distributor)
      requires d.Valid(now) && d.State().profiles == map[]
      ensures Valid(now) && State() == DEPLOYED && distributor == d
    {
      distributor := d;
      participants, participantIdByWallet, consentVersions, paused := map[], map[], map[], false;
      approvals, fundings := [], [];
    }

    lemma LaterClock(before: uint64, now: uint64)
      requires Valid(before) && before <= now
      ensures Valid(now)
    {
      hide ChainOk, Pol.Distributor.Valid;
      distributor.LaterClock(before, now);
      RegistryRules.LaterClock(State(), distributor.State(), before, now);
    }

    method ApproveClaimedInvitation(now: uint64, p: Hash, wallet: Address, approvedRoles: bv8, expiresAt: uint64)
      returns (failure: Failure)
      requires Valid(now)
      modifies this
      ensures Valid(now)
      ensures Follows(old(Rule(now, CallApprove(p, wallet, approvedRoles, expiresAt))), failure, old(State()),
                      old(distributor.State()), State(), distributor.State())
    {
      hide ChainOk, Pol.Distributor.Valid;
      Known(now);
      if paused { return Failed(EnforcedPause); }
      if p == 0 { return Failed(InvalidIdentifier); }
      if wallet == 0 { return Failed(InvalidAddress); }
      if approvedRoles == 0 || approvedRoles & !ALL_ROLES != 0 { return Failed(InvalidRoles); }
      if expiresAt <= now { return Failed(InvalidExpiry); }
      if p in participants { return Failed(ParticipantAlreadyApproved); }
      if Read(participantIdByWallet, wallet, 0) != 0 { return Failed(WalletAlreadyApproved); }
      participants := participants[p := Participant(wallet, approvedRoles, 0, now, expiresAt, true, false)];
      participantIdByWallet := participantIdByWallet[wallet := p];
      approvals := approvals + [Entry(p, wallet)];
      failure := Success;
      ApplyKeeps(old(State()), State(), distributor.State(), distributor.State(), now,
                 CallApprove(p, wallet, approvedRoles, expiresAt));
    }

    /** No participant id is zero, so a zero index entry means "no entry". */
    lemma Known(now: uint64)
      requires Valid(now)
      ensures forall w :: Read(participantIdByWallet, w, 0) != 0 <==> w in participantIdByWallet
      ensures forall w :: w in participantIdByWallet ==> participantIdByWallet[w] in participants
    {
    }

    method FundInitial(now: uint64, p: Hash, operation: Hash, walletBalance: nat, accepts: bool)
      returns (failure: Failure, amount: nat)
      requires Valid(now)
      modifies this, distributor
      ensures Valid(now)
      ensures Follows(old(Rule(now, CallFund(p, operation, walletBalance, accepts))), failure, old(State()),
                      old(distributor.State()), State(), distributor.State())
      ensures distributor.balance == old(distributor.balance) - amount
    {
      hide ChainOk, Pol.Distributor.Valid, D.RegisterAndTopUp;
      amount := 0;
      if paused { return Failed(EnforcedPause), 0; }
      if operation == 0 { return Failed(InvalidIdentifier), 0; }
      var bar := ActiveApproval(now, p);
      if bar != None { return Failed(bar.value), 0; }
      if participants[p].initialFundingCompleted { return Failed(InitialFundingAlreadyCompleted), 0; }
      var rejected;
      rejected, amount := distributor.RegisterAndTopUp(now, p, participants[p].wallet, walletBalance, operation, accepts);
      if rejected != Pol.Success {
        amount := 0;
        return Failed(DistributorRejected(rejected.error)), amount;
      }
      participants := participants[p := participants[p].(initialFundingCompleted := true)];
      fundings := fundings + [Entry(p, participants[p].wallet)];
      failure := Success;
      ApplyKeeps(old(State()), State(), old(distributor.State()), distributor.State(), now,
                 CallFund(p, operation, walletBalance, accepts));
    }

    method ActiveApproval(now: uint64, p: Hash) returns (bar: Option<Error>)
      ensures bar == ApprovalBar(State(), now, p)
    {
      if p !in participants { return Some(ParticipantNotApproved); }
      if !participants[p].active { return Some(ParticipantInactive); }
      if participants[p].registeredRoles == 0 && participants[p].approvalExpiresAt < now { return Some(ApprovalExpired); }
      bar := None;
    }

    method RegisterSelf(now: uint64, sender: Address, role: bv8, consent: Hash) returns (failure: Failure)
      requires Valid(now)
      modifies this`participants, this`consentVersions
      ensures Valid(now)
      ensures Follows(old(Rule(now, CallRegisterSelf(sender, role, consent))), failure, old(State()),
                      old(distributor.State()), State(), distributor.State())
    {
      hide ChainOk, Pol.Distributor.Valid;
      Known(now);
      if paused { return Failed(EnforcedPause); }
      if !SingleRole(role) || consent == 0 { return Failed(InvalidRoles); }
      var p := Read(participantIdByWallet, sender, 0);
      if p == 0 { return Failed(ParticipantNotApproved); }
      var bar := ActiveApproval(now, p);
      if bar != None { return Failed(bar.value); }
      var participant := participants[p];
      if participant.wallet != sender { return Failed(WalletMismatch); }
      if participant.approvedRoles & role == 0 { return Failed(RoleNotApproved); }
      if participant.registeredRoles & role != 0 { return Failed(RoleAlreadyRegistered); }
      participants := participants[p := participant.(registeredRoles := participant.registeredRoles | role)];
      consentVersions := consentVersions[(p, role) := consent];
      failure := Success;
      ApplyKeeps(old(State()), State(), distributor.State(), distributor.State(), now,
                 CallRegisterSelf(sender, role, consent));
    }

    method SetParticipantActive(now: uint64, p: Hash, active: bool) returns (failure: Failure)
      requires Valid(now)
      modifies this`participants
      ensures Valid(now)
      ensures Follows(old(Rule(now, CallSetActive(p, active))), failure, old(State()), old(distributor.State()),
                      State(), distributor.State())
    {
      hide ChainOk, Pol.Distributor.Valid;
      if p !in participants { return Failed(ParticipantNotApproved); }
      participants := participants[p := participants[p].(active := active)];
      failure := Success;
      ApplyKeeps(old(State()), State(), distributor.State(), distributor.State(), now, CallSetActive(p, active));
    }

    method SetPaused(now: uint64, pause: bool) returns (failure: Failure)
      requires Valid(now)
      modifies this`paused
      ensures Valid(now)
      ensures Follows(old(Rule(now, CallPause(pause))), failure, old(State()), old(distributor.State()),
                      State(), distributor.State())
    {
      hide ChainOk, Pol.Distributor.Valid;
      if paused == pause { return Failed(if pause then EnforcedPause else ExpectedPause); }
      paused := pause;
      failure := Success;
      ApplyKeeps(old(State()), State(), distributor.State(), distributor.State(), now, CallPause(pause));
    }

    ghost predicate ClaimStands(now: uint64, p: Hash, wallet: Address, role: bv8)
      requires p in participants
      reads this
    {
      && participants[p].wallet == wallet && participants[p].active
      && participants[p].approvalExpiresAt >= now && participants[p].approvedRoles & role != 0
    }

    /** isClaimApproved: nobody is claim-approved without a live approval of that wallet for that role. */
    method IsClaimApproved(now: uint64, wallet: Address, role: bv8) returns (approved: bool)
      requires Valid(now)
      ensures approved <==> (role == 1 || role == 2) && exists p :: p in participants && ClaimStands(now, p, wallet, role)
    {
      hide D.BookOk, HistoryOk, BooksAgree;
      assert SingleRole(role) <==> role == 1 || role == 2;
      if !SingleRole(role) { return false; }
      Known(now);
      var p := Read(participantIdByWallet, wallet, 0);
      if p == 0 { return false; }
      approved := participants[p].active && participants[p].approvalExpiresAt >= now && participants[p].approvedRoles & role != 0;
    }
  }
}
