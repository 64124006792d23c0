/**
 The body of the operator's process run against the stored rows, the registry and the distributor,
 in place on the three objects: the undisturbed process of EnrollmentProgress, whose approval lands
 at one time and whose funding lands at a later one.
 */
module EnrollmentOperator {
  import opened Common
  import opened EnrollmentStore
  import opened EnrollmentProgress
  import E = Enrollment
  import Inv = EnrollmentInvariants
  import R = RegistryRules
  import D = DistributorRules
  import Pol = Distributor
  import Reg = Registry

  /** The table never runs ahead of the registry, and rows never share a participant. */
  ghost predicate StoreOk(rows: Table, r: R.Registry) {
    && (forall id :: id in rows ==>
          rows[id].participant != 0 && rows[id].operation != 0 && rows[id].wallet != 0 && Inv.RowOk(rows[id], r))
    && forall i, j :: i in rows && j in rows && i != j ==> rows[i].participant != rows[j].participant
  }

  lemma StoreAfterUpdate(rows: Table, r: R.Registry, id: nat, row: Row)
    requires StoreOk(rows, r) && id in rows && Inv.RowOk(row, r)
    requires row == rows[id].(state := row.state, approvalTx := row.approvalTx, fundingTx := row.fundingTx,
                              amount := row.amount)
    ensures StoreOk(rows[id := row], r)
  {
    hide Inv.RowOk;
  }

  lemma StoreAfterCall(rows: Table, r: R.Registry, r': R.Registry)
    requires StoreOk(rows, r) && R.Later(r, r')
    ensures StoreOk(rows, r')
  {
    forall i | i in rows ensures Inv.RowOk(rows[i], r') {
      assert Inv.RowOk(rows[i], r);
    }
  }

  /** Distinct fresh ids keep a new row apart from the others. */
  lemma StoreAfterCreation(rows: Table, r: R.Registry, id: nat, row: Row)
    requires StoreOk(rows, r) && id !in rows && row.state == READY_FOR_APPROVAL
    requires row.participant != 0 && row.operation != 0 && row.wallet != 0
    requires forall i :: i in rows ==> rows[i].participant != row.participant
    ensures StoreOk(rows[id := row], r)
  {
  }

  class ParticipantEnrollmentOperator {
    const store: Store
    const registry: Reg.Registry

    ghost predicate Valid(now: uint64)
      reads this, store, registry, registry.distributor
    {
      registry.Valid(now) && StoreOk(store.enrollments, registry.State())
    }

    constructor (now: uint64, s: Store, r: Reg.Registry)
      requires r.Valid(now) && StoreOk(s.enrollments, r.State())
      ensures Valid(now) && store == s && registry == r
    {
      store, registry := s, r;
    }

    lemma LaterClock(before: uint64, now: uint64)
      requires Valid(before) && before <= now
      ensures Valid(now)
    {
      hide StoreOk;
      registry.LaterClock(before, now);
    }

    /** What the chain must allow for this row. */
    ghost predicate Fits(row: Row, approvalAt: uint64, funding: Landing)
      reads this, registry, registry.distributor
    {
      Fundable(registry.State(), registry.distributor.State(), row, approvalAt, funding)
    }

    /** Fund the approved participant, or record that the chain already has. */
    method Fund(ghost approvalAt: uint64, before: nat, funding: Landing, after: nat, id: nat, tx: nat) returns (ok: bool)
      requires Valid(funding.now) && id in store.enrollments && InFundingPhase(store.enrollments[id].state)
      modifies store, registry, registry.distributor
      ensures Valid(funding.now) && Onward(old(store.enrollments), store.enrollments)
      ensures ok <==> old(Fits(store.enrollments[id], approvalAt, funding))
      ensures ok ==> id in store.enrollments && store.enrollments[id].state == FUNDED
      ensures ok ==>
        store.enrollments[id].amount
        == Some(if old(R.Funded(registry.State(), store.enrollments[id].participant)) then 0 else E.Gain(before, after))
      ensures ok && !old(R.Funded(registry.State(), store.enrollments[id].participant)) ==>
        store.enrollments[id].fundingTx == Some(tx)
      ensures ok ==> store.enrollments[id].approvalTx == old(store.enrollments[id].approvalTx)
    {
      hide R.ChainOk, Pol.Distributor.Valid, R.FundInitial, Onward, CanPay;
      var row := store.enrollments[id];
      ghost var rows := store.enrollments;
      assert Inv.RowOk(row, registry.State());
      hide Inv.RowOk, StoreOk;
      var v := registry.participants[row.participant];
      StaysOnward(rows);
      if v.wallet != row.wallet || v.approvedRoles != row.roles || !v.active { return false; }
      if !v.initialFundingCompleted {
        ok := FundOnChain(approvalAt, before, funding, after, id, tx);
      } else {
        UpdatesGoOnward(rows, id, 0, row.fundingTx, 0);
        StoreAfterFunding(rows, registry.State(), id, Funded(rows, id, row.fundingTx, 0));
        var changes := store.MarkFunded(id, row.fundingTx, 0);
        ok := true;
      }
    }

    method FundOnChain(ghost approvalAt: uint64, before: nat, funding: Landing, after: nat, id: nat, tx: nat)
      returns (ok: bool)
      requires Valid(funding.now) && id in store.enrollments && InFundingPhase(store.enrollments[id].state)
      requires Inv.Matches(store.enrollments[id], registry.State())
      requires !R.Funded(registry.State(), store.enrollments[id].participant)
      requires registry.participants[store.enrollments[id].participant].active
      modifies store, registry, registry.distributor
      ensures Valid(funding.now) && Onward(old(store.enrollments), store.enrollments)
      ensures ok <==> old(Fits(store.enrollments[id], approvalAt, funding))
      ensures ok ==> id in store.enrollments && store.enrollments[id].state == FUNDED
      ensures ok ==> store.enrollments[id].amount == Some(E.Gain(before, after))
      ensures ok ==> store.enrollments[id].fundingTx == Some(tx)
      ensures ok ==> store.enrollments[id].approvalTx == old(store.enrollments[id].approvalTx)
      ensures !ok ==> store.enrollments == old(store.enrollments)[id := old(store.enrollments)[id].(state := FUNDING_FAILED)]
    {
      hide Pol.Distributor.Valid, R.FundInitial, Onward, R.ChainOk, CanPay, Inv.RowOk;
      var row := store.enrollments[id];
      ghost var rows, r, b := store.enrollments, registry.State(), registry.distributor.State();
      FundableKnown(rows, r, b, id, approvalAt, funding);
      hide StoreOk, Fundable, R.Later, R.Funded;
      ghost var call := R.CallFund(row.participant, row.operation, funding.walletBalance, funding.accepts);
      var failure, _ := registry.FundInitial(funding.now, row.participant, row.operation, funding.walletBalance,
                                                  funding.accepts);
      if failure != Reg.Success {
        FailureGoesOnward(rows, id, true);
        StoreAfterUpdate(rows, registry.State(), id, row.(state := FUNDING_FAILED));
        var changes := store.Fail(id, true);
        return false;
      }
      ghost var r', b' := registry.State(), registry.distributor.State();
      FundingEffect(rows, r, r', b, b', funding.now, call, id);
      var amount := E.Gain(before, after);
      TwoFundingUpdates(rows, id, tx, amount);
      StoreAfterFunding(rows, r', id, Funded(FundingSubmitted(rows, id, tx), id, Some(tx), amount));
      var changes := store.MarkFundingSubmitted(id, tx);
      changes := store.MarkFunded(id, Some(tx), amount);
      ok := true;
    }

    /**
     The whole body: from any stored row and any chain state it funds exactly what can be approved
     when the approval lands and funded when the funding lands. before and after are the two balance reads.
     */
    method Process(approvalAt: uint64, before: nat, funding: Landing, after: nat, id: nat,
                   invitation: Option<E.Invitation>, d: Draw, approvalTx: nat, fundingTx: nat) returns (ok: bool)
      requires Valid(approvalAt) && approvalAt <= funding.now
      requires d.operation != 0 && d.participant != 0 && d.participant !in registry.participants
      requires forall i :: i in store.enrollments ==> store.enrollments[i].participant != d.participant
      modifies store, registry, registry.distributor
      ensures Valid(funding.now) && Onward(old(store.enrollments), store.enrollments)
      ensures ok ==> id in store.enrollments && store.enrollments[id].state == FUNDED
      ensures ok <==>
        && invitation.Some? && invitation.value.wallet != 0
        && var row := old(RowToProcess(id, invitation.value, d));
           && row.wallet == invitation.value.wallet && row.roles == invitation.value.roles
           && (row.state == FUNDED || old(Fits(row, approvalAt, funding)))
      ensures ok && old(RowToProcess(id, invitation.value, d)).state != FUNDED ==>
        store.enrollments[id].amount
        == Some(if old(R.Funded(registry.State(), RowToProcess(id, invitation.value, d).participant)) then 0
                else E.Gain(before, after))
      ensures ok && old(RowToProcess(id, invitation.value, d)).state != FUNDED ==>
        var p := old(RowToProcess(id, invitation.value, d)).participant;
        && (!old(R.Funded(registry.State(), p)) ==> store.enrollments[id].fundingTx == Some(fundingTx))
        && (p !in old(registry.participants) ==> store.enrollments[id].approvalTx == Some(approvalTx))
    {
      hide Reg.Registry.Valid, Inv.RowOk, Onward, Fundable, StoreOk;
      LaterClock(approvalAt, funding.now);
      StaysOnward(store.enrollments);
      if invitation.None? || invitation.value.wallet == 0 { return false; }
      var wallet, roles := invitation.value.wallet, invitation.value.roles;
      ghost var rows := store.enrollments;
      var row;
      if id !in store.enrollments {
        StoreAfterCreation(rows, registry.State(), id, RowToProcess(id, invitation.value, d));
        row := store.CreateParticipantEnrollment(id, d.participant, d.operation, wallet, roles, d.expiresAt);
      } else {
        row := store.enrollments[id];
      }
      if row.wallet != wallet || row.roles != roles { return false; }
      if row.state == FUNDED { return true; }
      ghost var created := store.enrollments;
      ok := Reconcile(approvalAt, before, funding, after, id, approvalTx, fundingTx);
      OnwardTransitive(rows, created, store.enrollments);
    }

    ghost function RowToProcess(id: nat, invitation: E.Invitation, d: Draw): Row
      reads this, store
    {
      if id in store.enrollments then store.enrollments[id]
      else
        Row(d.participant, d.operation, invitation.wallet, invitation.roles, d.expiresAt, READY_FOR_APPROVAL, None, None,
            None)
    }

    /** From the first reading of the chain on. */
    method Reconcile(approvalAt: uint64, before: nat, funding: Landing, after: nat, id: nat, approvalTx: nat,
                     fundingTx: nat) returns (ok: bool)
      requires Valid(approvalAt) && approvalAt <= funding.now
      requires id in store.enrollments && store.enrollments[id].state != FUNDED
      modifies store, registry, registry.distributor
      ensures Valid(funding.now) && Onward(old(store.enrollments), store.enrollments)
      ensures ok <==> old(Fits(store.enrollments[id], approvalAt, funding))
      ensures ok ==> id in store.enrollments && store.enrollments[id].state == FUNDED
      ensures ok ==>
        store.enrollments[id].amount
        == Some(if old(R.Funded(registry.State(), store.enrollments[id].participant)) then 0 else E.Gain(before, after))
      ensures ok && !old(R.Funded(registry.State(), store.enrollments[id].participant)) ==>
        store.enrollments[id].fundingTx == Some(fundingTx)
      ensures ok && old(store.enrollments[id].participant !in registry.participants) ==>
        store.enrollments[id].approvalTx == Some(approvalTx)
    {
      hide Pol.Distributor.Valid, Onward, R.ChainOk, Fundable;
      var row := store.enrollments[id];
      ghost var rows := store.enrollments;
      StaysOnward(rows);
      assert Inv.RowOk(row, registry.State());
      WalletStanding(registry.State(), registry.distributor.State(), approvalAt, row);
      hide StoreOk;
      LaterClock(approvalAt, funding.now);
      var index := Read(registry.participantIdByWallet, row.wallet, 0);
      if index != 0 && index != row.participant { return false; }
      if row.participant !in registry.participants {
        ok := Approve(approvalAt, funding, id, approvalTx);
        LaterClock(approvalAt, funding.now);
        if !ok { return false; }
      } else if !InFundingPhase(row.state) {
        RecordApproval(funding.now, id, row.approvalTx, approvalAt, funding);
      }
      ghost var approved := store.enrollments;
      ok := Fund(approvalAt, before, funding, after, id, fundingTx);
      OnwardTransitive(rows, approved, store.enrollments);
    }

    /** The chain already has the approval. */
    method RecordApproval(ghost now: uint64, id: nat, tx: Option<nat>, ghost approvalAt: uint64, ghost funding: Landing)
      requires Valid(now) && id in store.enrollments && store.enrollments[id].state != FUNDED
      requires store.enrollments[id].participant in registry.participants
      modifies store
      ensures Valid(now) && Onward(old(store.enrollments), store.enrollments) && id in store.enrollments
      ensures InFundingPhase(store.enrollments[id].state)
      ensures Fits(store.enrollments[id], approvalAt, funding) == old(Fits(store.enrollments[id], approvalAt, funding))
      ensures store.enrollments[id].participant == old(store.enrollments[id].participant)
    {
      hide Reg.Registry.Valid, Onward, Fundable;
      ghost var rows, row := store.enrollments, Approved(store.enrollments, id, tx)[id];
      UpdatesGoOnward(rows, id, 0, tx, 0);
      ApprovedRow(rows, registry.State(), id, Approved(rows, id, tx));
      hide StoreOk;
      SameRegistration(registry.State(), registry.distributor.State(), rows[id], row, approvalAt, funding);
      var changes := store.MarkApproved(id, tx);
    }

    /** Approve on chain and record it; a refused approval is recorded as failed. */
    method Approve(approvalAt: uint64, ghost funding: Landing, id: nat, tx: nat) returns (ok: bool)
      requires Valid(approvalAt) && id in store.enrollments && Phase(store.enrollments[id].state) == 0
      requires store.enrollments[id].participant !in registry.participants
      modifies store, registry
      ensures Valid(approvalAt) && Onward(old(store.enrollments), store.enrollments) && id in store.enrollments
      ensures !ok ==> !old(Fits(store.enrollments[id], approvalAt, funding))
      ensures ok ==>
        && InFundingPhase(store.enrollments[id].state)
        && Fits(store.enrollments[id], approvalAt, funding) == old(Fits(store.enrollments[id], approvalAt, funding))
      ensures ok ==> !R.Funded(registry.State(), store.enrollments[id].participant)
      ensures store.enrollments[id].participant == old(store.enrollments[id].participant)
      ensures if ok then store.enrollments[id].approvalTx == Some(tx) else store.enrollments[id].state == APPROVAL_FAILED
    {
      hide Pol.Distributor.Valid, Onward, R.ChainOk, R.ApproveClaimedInvitation, Fundable, StoreOk, Inv.RowOk, R.Later;
      var row := store.enrollments[id];
      ghost var rows, r, b := store.enrollments, registry.State(), registry.distributor.State();
      RowIsNamed(rows, r, id);
      ApprovalThenFunding(r, b, row, approvalAt, funding, 0);
      Approves(r, row, approvalAt);
      ghost var call := R.CallApprove(row.participant, row.wallet, row.roles, row.expiresAt);
      var failure := registry.ApproveClaimedInvitation(approvalAt, row.participant, row.wallet, row.roles, row.expiresAt);
      if failure != Reg.Success {
        RecordRefusal(approvalAt, id);
        return false;
      }
      ghost var r' := registry.State();
      R.ApplyKeeps(r, r', b, b, approvalAt, call);
      StoreAfterCall(rows, r, r');
      RecordOwnApproval(approvalAt, id, tx, approvalAt, funding);
      ok := true;
    }

    method RecordRefusal(ghost now: uint64, id: nat)
      requires Valid(now) && id in store.enrollments && Phase(store.enrollments[id].state) == 0
      modifies store
      ensures Valid(now) && Onward(old(store.enrollments), store.enrollments) && id in store.enrollments
      ensures store.enrollments[id].participant == old(store.enrollments[id].participant)
      ensures store.enrollments[id].state == APPROVAL_FAILED
    {
      hide Reg.Registry.Valid, Onward;
      FailureGoesOnward(store.enrollments, id, false);
      StoreAfterUpdate(store.enrollments, registry.State(), id, store.enrollments[id].(state := APPROVAL_FAILED));
      var changes := store.Fail(id, false);
    }

    method RecordOwnApproval(ghost now: uint64, id: nat, tx: nat, ghost approvalAt: uint64, ghost funding: Landing)
      requires Valid(now) && id in store.enrollments && Phase(store.enrollments[id].state) == 0
      requires store.enrollments[id].participant in registry.participants
      modifies store
      ensures Valid(now) && Onward(old(store.enrollments), store.enrollments) && id in store.enrollments
      ensures InFundingPhase(store.enrollments[id].state)
      ensures Fits(store.enrollments[id], approvalAt, funding) == old(Fits(store.enrollments[id], approvalAt, funding))
      ensures store.enrollments[id].participant == old(store.enrollments[id].participant)
      ensures store.enrollments[id].approvalTx == Some(tx)
    {
      hide Reg.Registry.Valid, Onward, Fundable, Inv.RowOk;
      ghost var rows := store.enrollments;
      ghost var rows' := Approved(ApprovalSubmitted(rows, id, tx), id, Some(tx));
      TwoApprovalUpdates(rows, id, tx);
      ApprovedRow(rows, registry.State(), id, rows');
      hide StoreOk;
      SameRegistration(registry.State(), registry.distributor.State(), rows[id], rows'[id], approvalAt, funding);
      var changes := store.MarkApprovalSubmitted(id, tx);
      changes := store.MarkApproved(id, Some(tx));
    }
  }

  lemma RowIsNamed(rows: Table, r: R.Registry, id: nat)
    requires StoreOk(rows, r) && id in rows
    ensures rows[id].participant != 0 && rows[id].wallet != 0
  {
  }

  /** Fundable does not look at what confirming an approval changes. */
  lemma SameRegistration(r: R.Registry, b: D.Book, row: Row, row': Row, approvalAt: uint64, funding: Landing)
    requires row' == row.(state := row'.state, approvalTx := row'.approvalTx)
    ensures Fundable(r, b, row, approvalAt, funding) == Fundable(r, b, row', approvalAt, funding)
  {
    hide CanPay;
  }

  /** Whether fundInitial goes through for an approved, unfunded row. */
  lemma FundableKnown(rows: Table, r: R.Registry, b: D.Book, id: nat, approvalAt: uint64, funding: Landing)
    requires StoreOk(rows, r) && R.ChainOk(r, b, funding.now) && id in rows && Inv.Matches(rows[id], r)
    requires !R.Funded(r, rows[id].participant) && r.participants[rows[id].participant].active
    ensures var row := rows[id];
            && Inv.RowOk(row.(state := FUNDING_FAILED), r)
            && (R.FundInitial(r, b, funding.now, row.participant, row.operation, funding.walletBalance, funding.accepts).Ok?
                <==> Fundable(r, b, row, approvalAt, funding))
  {
    WhenFundingSucceeds(r, b, funding, rows[id].participant, rows[id].operation);
    hide R.ChainOk, R.FundInitial, CanPay;
  }

  lemma FundingEffect(rows: Table, r: R.Registry, r': R.Registry, b: D.Book, b': D.Book, now: uint64, call: R.Call, id: nat)
    requires StoreOk(rows, r) && R.ChainOk(r, b, now) && id in rows && call.CallFund? && call.p == rows[id].participant
    requires Inv.Matches(rows[id], r) && R.Apply(r, b, now, call) == Ok((r', b'))
    ensures StoreOk(rows, r') && R.Funded(r', call.p) && Inv.Matches(rows[id], r')
  {
    hide StoreOk, R.Apply, R.ChainOk;
    R.ApplyKeeps(r, r', b, b', now, call);
    StoreAfterCall(rows, r, r');
    FundedNow(r, r', b, b', now, call);
  }

  lemma FundedNow(r: R.Registry, r': R.Registry, b: D.Book, b': D.Book, now: uint64, call: R.Call)
    requires call.CallFund? && R.Apply(r, b, now, call) == Ok((r', b'))
    ensures R.Funded(r', call.p)
  {
    hide D.RegisterAndTopUp;
  }

  lemma TwoFundingUpdates(t: Table, id: nat, tx: nat, amount: nat)
    ensures Onward(t, Funded(FundingSubmitted(t, id, tx), id, Some(tx), amount))
  {
    hide Onward;
    var t1 := FundingSubmitted(t, id, tx);
    UpdatesGoOnward(t, id, tx, Some(tx), amount);
    UpdatesGoOnward(t1, id, tx, Some(tx), amount);
    OnwardTransitive(t, t1, Funded(t1, id, Some(tx), amount));
  }

  lemma TwoApprovalUpdates(t: Table, id: nat, tx: nat)
    ensures Onward(t, Approved(ApprovalSubmitted(t, id, tx), id, Some(tx)))
  {
    hide Onward;
    var t1 := ApprovalSubmitted(t, id, tx);
    UpdatesGoOnward(t, id, tx, Some(tx), 0);
    UpdatesGoOnward(t1, id, tx, Some(tx), 0);
    OnwardTransitive(t, t1, Approved(t1, id, Some(tx)));
  }

  lemma StoreAfterFunding(rows: Table, r: R.Registry, id: nat, rows': Table)
    requires StoreOk(rows, r) && id in rows && R.Funded(r, rows[id].participant) && Inv.Matches(rows[id], r) && id in rows'
    requires rows' == rows[id := rows[id].(state := FUNDED, fundingTx := rows'[id].fundingTx, amount := rows'[id].amount)]
    ensures StoreOk(rows', r)
  {
    StoreAfterUpdate(rows, r, id, rows'[id]);
  }

  lemma ApprovedRow(rows: Table, r: R.Registry, id: nat, rows': Table)
    requires StoreOk(rows, r) && id in rows && rows[id].participant in r.participants && id in rows'
    requires rows' == rows[id := rows[id].(state := APPROVED, approvalTx := rows'[id].approvalTx)]
    ensures StoreOk(rows', r)
  {
    StoreAfterUpdate(rows, r, id, rows'[id]);
  }
}
