/**
 The gateway's participant_enrollments table: guarded updates in place, each an UPDATE whose WHERE
 clause decides whether it changes anything.
 */
module EnrollmentStore {
  import opened Common

  datatype State =
    | READY_FOR_APPROVAL | APPROVAL_SUBMITTED | APPROVAL_FAILED
    | APPROVED | FUNDING_SUBMITTED | FUNDING_FAILED | FUNDED

  /** amount is the confirmed initial funding. Timestamps and error texts are not kept. */
  datatype Row = Row(participant: Hash, operation: Hash, wallet: Address, roles: bv8, expiresAt: uint64, state: State,
                     approvalTx: Option<nat>, fundingTx: Option<nat>, amount: Option<nat>)

  type Table = map<nat, Row>

  predicate InFundingPhase(s: State) { s == APPROVED || s == FUNDING_SUBMITTED || s == FUNDING_FAILED }

  function Coalesce(o: Option<nat>, otherwise: Option<nat>): Option<nat> { if o.Some? then o else otherwise }

  // What the WHERE clauses let through

  function Created(t: Table, id: nat, p: Hash, operation: Hash, wallet: Address, roles: bv8, expiresAt: uint64): Table {
    if id in t then t
    else t[id := Row(p, operation, wallet, roles, expiresAt, READY_FOR_APPROVAL, None, None, None)]
  }

  function ApprovalSubmitted(t: Table, id: nat, tx: nat): Table {
    if id in t && (t[id].state == READY_FOR_APPROVAL || t[id].state == APPROVAL_FAILED) then
      t[id := t[id].(state := APPROVAL_SUBMITTED, approvalTx := Some(tx))]
    else t
  }

  function Approved(t: Table, id: nat, tx: Option<nat>): Table {
    if id in t && t[id].state != FUNDED then
      t[id := t[id].(state := APPROVED, approvalTx := Coalesce(tx, t[id].approvalTx))]
    else t
  }

  function FundingSubmitted(t: Table, id: nat, tx: nat): Table {
    if id in t && (t[id].state == APPROVED || t[id].state == FUNDING_FAILED) then
      t[id := t[id].(state := FUNDING_SUBMITTED, fundingTx := Some(tx))]
    else t
  }

  function Funded(t: Table, id: nat, tx: Option<nat>, amount: nat): Table {
    if id in t then
      t[id := t[id].(state := FUNDED, fundingTx := Coalesce(tx, t[id].fundingTx), amount := Some(amount))]
    else t
  }

  function Failed(t: Table, id: nat, funding: bool): Table {
    if id in t && t[id].state != FUNDED then
      t[id := t[id].(state := if funding then FUNDING_FAILED else APPROVAL_FAILED)]
    else t
  }

  // What every update keeps

  /** approval < funding < funded. */
  function Phase(s: State): nat { if s == FUNDED then 2 else if InFundingPhase(s) then 1 else 0 }

  /** Rows are never deleted, keep their participant, operation, wallet and roles, and never go back a phase. */
  ghost predicate Onward(t: Table, t': Table) {
    forall id :: id in t ==>
      && id in t'
      && t'[id] == t[id].(state := t'[id].state, approvalTx := t'[id].approvalTx, fundingTx := t'[id].fundingTx,
                          amount := t'[id].amount)
      && Phase(t[id].state) <= Phase(t'[id].state)
  }

  lemma OnwardTransitive(a: Table, b: Table, c: Table)
    requires Onward(a, b) && Onward(b, c)
    ensures Onward(a, c)
  {
  }

  lemma RowGoesOnward(t: Table, id: nat, r: Row)
    requires id in t ==>
      && r == t[id].(state := r.state, approvalTx := r.approvalTx, fundingTx := r.fundingTx, amount := r.amount)
      && Phase(t[id].state) <= Phase(r.state)
    ensures Onward(t, t[id := r])
  {
  }

  lemma StaysOnward(t: Table)
    ensures Onward(t, t)
  {
  }

  lemma CreationGoesOnward(t: Table, id: nat, p: Hash, operation: Hash, wallet: Address, roles: bv8, expiresAt: uint64)
    ensures Onward(t, Created(t, id, p, operation, wallet, roles, expiresAt))
  {
  }

  /** Confirmations and submissions never send a row back a phase. */
  lemma UpdatesGoOnward(t: Table, id: nat, tx: nat, confirmed: Option<nat>, amount: nat)
    ensures Onward(t, ApprovalSubmitted(t, id, tx)) && Onward(t, Approved(t, id, confirmed))
    ensures Onward(t, FundingSubmitted(t, id, tx)) && Onward(t, Funded(t, id, confirmed, amount))
  {
    hide Onward;
    StaysOnward(t);
    if id in t {
      if Phase(t[id].state) == 0 { RowGoesOnward(t, id, t[id].(state := APPROVAL_SUBMITTED, approvalTx := Some(tx))); }
      if t[id].state != FUNDED {
        RowGoesOnward(t, id, t[id].(state := APPROVED, approvalTx := Coalesce(confirmed, t[id].approvalTx)));
      }
      if Phase(t[id].state) == 1 {
        RowGoesOnward(t, id, t[id].(state := FUNDING_SUBMITTED, fundingTx := Some(tx)));
      }
      RowGoesOnward(t, id, t[id].(state := FUNDED, fundingTx := Coalesce(confirmed, t[id].fundingTx),
                                  amount := Some(amount)));
    }
  }

  /** A failure report is harmless exactly if it does not name the approval phase after funding has begun. */
  lemma FailureGoesOnward(t: Table, id: nat, funding: bool)
    ensures Onward(t, Failed(t, id, funding)) <==> (id in t && InFundingPhase(t[id].state) ==> funding)
  {
  }

  class Store {
    var enrollments: Table

    constructor ()
      ensures enrollments == map[]
    {
      enrollments := map[];
    }

    /** INSERT OR IGNORE: the ids of an invitation are drawn once. */
    method CreateParticipantEnrollment(id: nat, p: Hash, operation: Hash, wallet: Address, roles: bv8, expiresAt: uint64)
      returns (row: Row)
      modifies this
      ensures enrollments == Created(old(enrollments), id, p, operation, wallet, roles, expiresAt)
      ensures Onward(old(enrollments), enrollments) && id in enrollments && row == enrollments[id]
      ensures id in old(enrollments) ==> enrollments == old(enrollments)
      ensures id !in old(enrollments) ==>
        enrollments == old(enrollments)[id := Row(p, operation, wallet, roles, expiresAt, READY_FOR_APPROVAL, None, None, None)]
    {
      if id !in enrollments {
        enrollments := enrollments[id := Row(p, operation, wallet, roles, expiresAt, READY_FOR_APPROVAL, None, None, None)];
      }
      row := enrollments[id];
    }

    method MarkApprovalSubmitted(id: nat, tx: nat) returns (changes: nat)
      modifies this
      ensures enrollments == ApprovalSubmitted(old(enrollments), id, tx) && Onward(old(enrollments), enrollments)
      ensures changes == 1 <==> id in old(enrollments) && old(enrollments)[id].state in {READY_FOR_APPROVAL, APPROVAL_FAILED}
      ensures changes == 1 ==>
        enrollments == old(enrollments)[id := old(enrollments)[id].(state := APPROVAL_SUBMITTED, approvalTx := Some(tx))]
      ensures changes != 1 ==> enrollments == old(enrollments)
    {
      changes := 0;
      if id in enrollments && (enrollments[id].state == READY_FOR_APPROVAL || enrollments[id].state == APPROVAL_FAILED) {
        assert enrollments[id].state != APPROVAL_SUBMITTED;
        enrollments := enrollments[id := enrollments[id].(state := APPROVAL_SUBMITTED, approvalTx := Some(tx))];
        changes := 1;
      }
    }

    method MarkApproved(id: nat, tx: Option<nat>) returns (changes: nat)
      modifies this
      ensures enrollments == Approved(old(enrollments), id, tx) && Onward(old(enrollments), enrollments)
      ensures changes == 1 <==> id in old(enrollments) && old(enrollments)[id].state != FUNDED
      ensures changes == 1 ==>
        enrollments == old(enrollments)[id := old(enrollments)[id].(
          state := APPROVED, approvalTx := if tx.Some? then tx else old(enrollments)[id].approvalTx)]
      ensures changes != 1 ==> enrollments == old(enrollments)
    {
      changes := 0;
      if id in enrollments && enrollments[id].state != FUNDED {
        enrollments := enrollments[id := enrollments[id].(state := APPROVED,
                                                          approvalTx := Coalesce(tx, enrollments[id].approvalTx))];
        changes := 1;
      }
    }

    method MarkFundingSubmitted(id: nat, tx: nat) returns (changes: nat)
      modifies this
      ensures enrollments == FundingSubmitted(old(enrollments), id, tx) && Onward(old(enrollments), enrollments)
      ensures changes == 1 <==> id in old(enrollments) && old(enrollments)[id].state in {APPROVED, FUNDING_FAILED}
      ensures changes == 1 ==>
        enrollments == old(enrollments)[id := old(enrollments)[id].(state := FUNDING_SUBMITTED, fundingTx := Some(tx))]
      ensures changes != 1 ==> enrollments == old(enrollments)
    {
      changes := 0;
      if id in enrollments && (enrollments[id].state == APPROVED || enrollments[id].state == FUNDING_FAILED) {
        enrollments := enrollments[id := enrollments[id].(state := FUNDING_SUBMITTED, fundingTx := Some(tx))];
        changes := 1;
      }
    }

    method MarkFunded(id: nat, tx: Option<nat>, amount: nat) returns (changes: nat)
      modifies this
      ensures enrollments == Funded(old(enrollments), id, tx, amount) && Onward(old(enrollments), enrollments)
      ensures changes == 1 <==> id in old(enrollments)
      ensures changes == 1 ==>
        enrollments == old(enrollments)[id := old(enrollments)[id].(
          state := FUNDED, fundingTx := if tx.Some? then tx else old(enrollments)[id].fundingTx, amount := Some(amount))]
      ensures changes != 1 ==> enrollments == old(enrollments)
    {
      changes := 0;
      if id in enrollments {
        enrollments := enrollments[id := enrollments[id].(state := FUNDED, amount := Some(amount),
                                                          fundingTx := Coalesce(tx, enrollments[id].fundingTx))];
        changes := 1;
      }
    }

    method Fail(id: nat, funding: bool) returns (changes: nat)
      modifies this
      ensures enrollments == Failed(old(enrollments), id, funding)
      ensures changes == 1 <==> id in old(enrollments) && old(enrollments)[id].state != FUNDED
      ensures changes == 1 ==>
        enrollments == old(enrollments)[id := old(enrollments)[id].(state := if funding then FUNDING_FAILED else APPROVAL_FAILED)]
      ensures changes != 1 ==> enrollments == old(enrollments)
    {
      changes := 0;
      if id in enrollments && enrollments[id].state != FUNDED {
        enrollments := enrollments[id := enrollments[id].(state := if funding then FUNDING_FAILED else APPROVAL_FAILED)];
        changes := 1;
      }
    }
  }
}
