/** What a row's transaction hashes and amount are worth: over every run they are the row's own confirmed transactions. */
module EnrollmentRecords {
  import opened Common
  import opened EnrollmentStore
  import opened Enrollment
  import opened EnrollmentInvariants
  import opened EnrollmentRuns
  import R = RegistryRules
  import D = DistributorRules

  /** A recorded hash is a transaction the operator signed for this row and that succeeded; an amount means FUNDED. */
  predicate Recorded(id: nat, row: Row, sent: seq<Sent>, receipts: map<nat, bool>) {
    && (row.approvalTx.Some? ==>
          var tx := row.approvalTx.value; tx < |sent| && sent[tx].Approve? && sent[tx].id == id && Read(receipts, tx, false))
    && (row.fundingTx.Some? ==>
          var tx := row.fundingTx.value; tx < |sent| && sent[tx].Fund? && sent[tx].id == id && Read(receipts, tx, false))
    && (row.amount.Some? <==> row.state == FUNDED)
  }

  ghost predicate RecordsOk(w: World) {
    forall id :: id in w.rows ==> Recorded(id, w.rows[id], w.sent, w.receipts)
  }

  lemma RowsUntouched(w: World, w': World)
    requires RecordsOk(w) && w'.rows == w.rows && WorldLater(w, w')
    ensures RecordsOk(w')
  {
    hide R.Later, Onward;
  }

  lemma FailsRecords(w: World, k: nat)
    requires RecordsOk(w) && k < |w.queue|
    ensures RecordsOk(Fails(w, k))
  {
  }

  lemma BeginsRecords(w: World, k: nat, p: Hash, operation: Hash, expiresAt: uint64)
    requires RecordsOk(w) && k < |w.queue|
    ensures RecordsOk(Begins(w, k, p, operation, expiresAt))
  {
  }

  lemma Approved2Records(w: World, k: nat, row: Row, p: Option<R.Participant>)
    requires RecordsOk(w) && k < |w.queue| && w.queue[k].id in w.rows && row == w.rows[w.queue[k].id]
    ensures RecordsOk(Approved2(w, k, row, p))
  {
  }

  lemma SettledRecords(w: World, k: nat)
    requires RecordsOk(w) && k < |w.queue|
    ensures RecordsOk(Settles(w, k, false))
  {
  }

  lemma StatusRecords(w: World, k: nat, a: Await)
    requires RecordsOk(w) && k < |w.queue| && w.queue[k].id in w.rows && a.Status? && a.row == w.rows[w.queue[k].id]
    ensures RecordsOk(ReadsStatus(w, k, a))
  {
    hide Approved2, Settles;
    SettledRecords(w, k);
    if a.participant.Some? && a.index.Some? && a.balance {
      Approved2Records(w, k, a.row, a.participant.value);
      var found := w.(seen := w.seen + {w.queue[k].id});
      Approved2Records(found, k, a.row, a.participant.value);
      var w' := found.(rows := Approved(w.rows, w.queue[k].id, a.row.approvalTx));
      Approved2Records(w', k, w'.rows[w.queue[k].id], a.participant.value);
    }
  }

  lemma SignsRecords(w: World, k: nat, s: Sent)
    requires RecordsOk(w) && k < |w.queue|
    ensures RecordsOk(w.(sent := w.sent + [s]))
  {
  }

  /** The two answers that write hashes. */
  lemma ConfirmedRecords(w: World, k: nat, a: Await)
    requires RecordsOk(w) && k < |w.queue| && AwaitOk(w, w.queue[k].id, a) && (a.ApprovalReceipt? || a.FinalBalance?)
    requires Read(w.receipts, a.tx, false)
    ensures var id := w.queue[k].id;
            if a.ApprovalReceipt? then RecordsOk(w.(rows := Approved(ApprovalSubmitted(w.rows, id, a.tx), id, Some(a.tx))))
            else forall amount :: RecordsOk(w.(rows := Funded(FundingSubmitted(w.rows, id, a.tx), id, Some(a.tx), amount)))
  {
  }

  lemma ContinuesRecords(w: World, k: nat, a: Await, reply: Reply)
    requires RecordsOk(w) && k < |w.queue| && w.queue[k].id in w.rows && AwaitOk(w, w.queue[k].id, a)
    ensures RecordsOk(Continues(w, k, a, reply))
  {
    hide ReadsStatus, Fails, Recorded, Holds, Gain, Approved, ApprovalSubmitted, Funded, FundingSubmitted;
    var id := w.queue[k].id;
    FailsRecords(w, k);
    if a.Status? {
      StatusRecords(w, k, a.(participant := Some(if a.row.participant in w.registry.participants
                                                 then Some(w.registry.participants[a.row.participant]) else None)));
      StatusRecords(w, k, a.(index := Some(Read(w.registry.ids, a.row.wallet, 0))));
      StatusRecords(w, k, a.(balance := true));
    } else if a.SendApproval? {
      var s := Approve(id, a.row.participant, a.row.wallet, a.row.roles, a.row.expiresAt);
      SignsRecords(w, k, s);
      FailsRecords(w.(sent := w.sent + [s]), k);
    } else if a.SendFunding? {
      var s := Fund(id, a.row.participant, a.row.operation);
      SignsRecords(w, k, s);
      FailsRecords(w.(sent := w.sent + [s]), k);
    } else if (a.ApprovalReceipt? || a.FinalBalance?) && Read(w.receipts, a.tx, false) {
      ConfirmedRecords(w, k, a);
    }
  }

  lemma StepRecords(w: World, before: uint64, now: uint64, e: Event)
    requires WorldOk(w, before) && before <= now && RecordsOk(w)
    ensures RecordsOk(Step(w, now, e))
  {
    hide CoreOk, QueueOk, AwaitOk, Recorded, Begins, Continues, Lands, Intervenes, Fresh, WorldLater, D.Apply, RecordsOk;
    EnrollmentInvariants.LaterClock(w, before, now);
    if e.Begin? && e.k < |w.queue| {
      BeginsRecords(w, e.k, e.p, e.operation, e.expiresAt);
    } else if e.Answer? && e.k < |w.queue| && w.queue[e.k].phase.Running? && w.queue[e.k].id in w.rows {
      ContinuesRecords(w, e.k, w.queue[e.k].phase.await, e.reply);
    } else {
      StepMovesOn(w, now, e);
      OnlyAnswersWrite(w, now, e);
      RowsUntouched(w, Step(w, now, e));
    }
  }

  lemma OnlyAnswersWrite(w: World, now: uint64, e: Event)
    requires e.Begin? ==> e.k >= |w.queue|
    requires e.Answer? ==> e.k >= |w.queue| || !w.queue[e.k].phase.Running? || w.queue[e.k].id !in w.rows
    ensures Step(w, now, e).rows == w.rows
  {
    hide R.Apply, D.Apply, AtRegistry, AtBank, CallOf, Fresh, Begins, Continues, Holds;
  }

  lemma {:induction false} RunRecords(start: uint64, events: seq<Timed>)
    requires Chronological(start, events)
    ensures RecordsOk(Run(GENESIS, events))
    decreases |events|
  {
    hide WorldOk, WorldLater, Step, Recorded;
    if events != [] {
      var before, e := events[..|events| - 1], events[|events| - 1];
      RunRecords(start, before);
      GenesisOk(start);
      RunKeeps(GENESIS, start, before);
      StepRecords(Run(GENESIS, before), Clock(start, before), e.now, e.event);
    }
  }

  /**
   In every run: the hashes a row shows are transactions the operator signed for it, that succeeded, and that name its
   participant; a funding's hash goes with a funded participant; and exactly the FUNDED rows show an amount.
   */
  lemma RecordedHashesAreTheRowsOwn(w: World, now: uint64, id: nat)
    requires Reachable(w, now) && id in w.rows
    ensures var (row, sent) := (w.rows[id], w.sent);
            && (row.approvalTx.Some? ==>
                  var tx := row.approvalTx.value;
                  && tx < |sent| && Read(w.receipts, tx, false) && Matches(row, w.registry)
                  && sent[tx] == Approve(id, row.participant, row.wallet, row.roles, row.expiresAt))
            && (row.fundingTx.Some? ==>
                  var tx := row.fundingTx.value;
                  && tx < |sent| && Read(w.receipts, tx, false) && R.Funded(w.registry, row.participant)
                  && sent[tx] == Fund(id, row.participant, row.operation))
            && (row.amount.Some? <==> row.state == FUNDED)
  {
    ReachableOk(w, now);
    assert Recorded(id, w.rows[id], w.sent, w.receipts) by {
      var start, events :| Chronological(start, events) && w == Run(GENESIS, events) && now == Clock(start, events);
      hide WorldOk;
      RunRecords(start, events);
    }
    hide Reachable, QueueOk, AwaitsOk, R.ChainOk, RowsOk, Solvent, OriginOk;
    forall tx | 0 <= tx < |w.sent| ensures SentOk(w.sent[tx], w.rows, w.registry, Read(w.receipts, tx, false)) {}
  }
}
