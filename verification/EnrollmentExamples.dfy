/** Two runs from the beginning that reach what the general statements allow: a wrong amount, a foreign approval. */
module EnrollmentExamples {
  import opened Common
  import opened EnrollmentStore
  import opened Enrollment
  import opened EnrollmentInvariants
  import opened EnrollmentRuns
  import R = RegistryRules
  import D = DistributorRules

  /** What is reached stays reached one event later. */
  lemma ReachesOn(w: World, now: uint64, later: uint64, e: Event)
    requires Reachable(w, now) && now <= later
    ensures Reachable(Step(w, later, e), later)
  {
    hide Step;
    var start, events :| Chronological(start, events) && w == Run(GENESIS, events) && now == Clock(start, events);
    var events' := events + [At(later, e)];
    assert events'[..|events|] == events;
    forall i | 0 <= i < |events'| ensures start <= events'[i].now && (i > 0 ==> events'[i - 1].now <= events'[i].now) {
      if i == |events| {
        if i == 0 { assert now == start; } else { assert events[i - 1].now == now && start <= events[i - 1].now; }
      }
    }
    assert events'[|events'| - 1] == At(later, e) && events'[..|events'| - 1] == events;
    var w' := Step(w, later, e);
    assert Chronological(start, events') && w' == Run(GENESIS, events') && later == Clock(start, events');
  }

  lemma StartsReachable()
    ensures Reachable(GENESIS, 1)
  {
    var none: seq<Timed> := [];
    assert Chronological(1, none) && Run(GENESIS, none) == GENESIS && Clock(1, none) == 1;
  }

  // Invitation 1 is claimed with wallet 70 for the user role; the distributor holds one ether.

  const ME := Invitation(70, R.USER_ROLE)
  const RICH := D.Book(map[], [], {}, D.ETHER, false, D.ETHER, 0)
  const CLAIMED := GENESIS.(invitations := map[1 := ME], bank := RICH)

  function MyRow(state: State, approvalTx: Option<nat>): Row {
    Row(5, 6, 70, R.USER_ROLE, 100, state, approvalTx, None, None)
  }

  /** The first run of the process, waiting for a. */
  function Working(row: Row, r: R.Registry, sent: seq<Sent>, receipts: map<nat, bool>, taken: map<Hash, Taken>, a: Await): World {
    CLAIMED.(rows := map[1 := row], registry := r, sent := sent, receipts := receipts, taken := taken,
             queue := [Job(1, Running(a))], running := map[1 := 0])
  }

  lemma ClaimedReached()
    ensures Reachable(CLAIMED, 1)
  {
    StartsReachable();
    var w1 := Step(GENESIS, 1, Invite(1, R.USER_ROLE));
    assert w1 == GENESIS.(invitations := map[1 := Invitation(0, R.USER_ROLE)]);
    var w2 := Step(w1, 1, Claim(1, 70));
    assert w2 == GENESIS.(invitations := map[1 := ME]);
    assert Step(w2, 1, BankCall(D.CallReceive(D.ETHER))) == CLAIMED;
    hide Step, Reachable;
    ReachesOn(GENESIS, 1, 1, Invite(1, R.USER_ROLE));
    ReachesOn(w1, 1, 1, Claim(1, 70));
    ReachesOn(w2, 1, 1, BankCall(D.CallReceive(D.ETHER)));
  }

  /** An answer that leaves the run waiting for something else. */
  lemma AnswerReaches(row: Row, r: R.Registry, sent: seq<Sent>, receipts: map<nat, bool>, taken: map<Hash, Taken>,
                      a: Await, reply: Reply, a': Await)
    requires Reachable(Working(row, r, sent, receipts, taken, a), 1)
    requires var w := Working(row, r, sent, receipts, taken, a); Continues(w, 0, a, reply) == Waits(w, 0, a')
    ensures Reachable(Working(row, r, sent, receipts, taken, a'), 1)
  {
    hide Continues, Reachable;
    var w := Working(row, r, sent, receipts, taken, a);
    assert Waits(w, 0, a') == Working(row, r, sent, receipts, taken, a');
    ReachesOn(w, 1, 1, Answer(0, reply));
  }

  /** The three reads arrive, the balance last. */
  lemma TwoReads(row: Row, r: R.Registry, sent: seq<Sent>, receipts: map<nat, bool>, taken: map<Hash, Taken>, again: bool)
    requires Reachable(Working(row, r, sent, receipts, taken, Status(row, again, None, None, false)), 1)
    ensures var p := if row.participant in r.participants then Some(r.participants[row.participant]) else None;
            Reachable(Working(row, r, sent, receipts, taken,
                              Status(row, again, Some(p), Some(Read(r.ids, row.wallet, 0)), false)), 1)
  {
    hide Reachable, Decides, Fails;
    var p := if row.participant in r.participants then Some(r.participants[row.participant]) else None;
    var a0, a1 := Status(row, again, None, None, false), Status(row, again, Some(p), None, false);
    AnswerReaches(row, r, sent, receipts, taken, a0, ParticipantRead, a1);
    AnswerReaches(row, r, sent, receipts, taken, a1, IndexRead,
                  Status(row, again, Some(p), Some(Read(r.ids, row.wallet, 0)), false));
  }

  const NEW := MyRow(READY_FOR_APPROVAL, None)

  lemma WorkingReached()
    ensures Reachable(Working(NEW, R.DEPLOYED, [], map[], map[], Status(NEW, false, None, None, false)), 1)
  {
    ClaimedReached();
    var w1 := Step(CLAIMED, 1, Process(1));
    assert w1 == CLAIMED.(queue := [Job(1, Waiting)], running := map[1 := 0]);
    assert Step(w1, 1, Begin(0, 5, 6, 100))
      == Working(NEW, R.DEPLOYED, [], map[], map[], Status(NEW, false, None, None, false));
    hide Step, Reachable;
    ReachesOn(CLAIMED, 1, 1, Process(1));
    ReachesOn(w1, 1, 1, Begin(0, 5, 6, 100));
  }

  // Somebody else approves participant 5 for wallet 80

  const FOREIGN := R.DEPLOYED.(participants := map[5 := R.Participant(80, R.USER_ROLE, 0, 1, 100, true, false)],
                               ids := map[80 := 5], approvals := [R.Entry(5, 80)])
  const TAKEN := map[5 := Taken(80, R.USER_ROLE)]

  lemma ForeignStep()
    ensures Step(Working(NEW, R.DEPLOYED, [], map[], map[], Status(NEW, false, None, None, false)), 1,
                 RegistryCall(R.CallApprove(5, 80, R.USER_ROLE, 100)))
            == Working(NEW, FOREIGN, [], map[], TAKEN, Status(NEW, false, None, None, false))
  {
    var r := R.DEPLOYED;
    assert r.approvals + [R.Entry(5, 80)] == [R.Entry(5, 80)];
    assert R.ApproveClaimedInvitation(r, 1, 5, 80, R.USER_ROLE, 100) == Ok(FOREIGN);
  }

  /** A row in the funding phase whose approval is somebody else's. */
  lemma ForeignApprovalIsReached()
    ensures exists w, now :: Reachable(w, now) && 1 in w.rows && w.rows[1].state == APPROVED && !Matches(w.rows[1], w.registry)
  {
    hide Reachable, Step;
    WorkingReached();
    ForeignStep();
    ReachesOn(Working(NEW, R.DEPLOYED, [], map[], map[], Status(NEW, false, None, None, false)), 1, 1,
              RegistryCall(R.CallApprove(5, 80, R.USER_ROLE, 100)));
    TwoReads(NEW, FOREIGN, [], map[], TAKEN, false);
    var w := Working(NEW, FOREIGN, [], map[], TAKEN, Status(NEW, false, Some(Some(FOREIGN.participants[5])), Some(0), false));
    ReachesOn(w, 1, 1, Answer(0, BalanceRead));
    ForeignRowStep();
  }

  lemma ForeignRowStep()
    ensures var w := Working(NEW, FOREIGN, [], map[], TAKEN,
                             Status(NEW, false, Some(Some(FOREIGN.participants[5])), Some(0), false));
            var w' := Step(w, 1, Answer(0, BalanceRead));
            1 in w'.rows && w'.rows[1] == MyRow(APPROVED, None) && w'.registry == FOREIGN
  {
  }

  // A funding whose receipt is lost

  const MINE := R.Participant(70, R.USER_ROLE, 0, 1, 100, true, false)
  const APPROVED_ME := R.DEPLOYED.(participants := map[5 := MINE], ids := map[70 := 5], approvals := [R.Entry(5, 70)])
  const SIGNED := [Approve(1, 5, 70, R.USER_ROLE, 100)]

  lemma SignsApproval()
    ensures Reachable(Working(NEW, R.DEPLOYED, SIGNED, map[], map[], ApprovalReceipt(NEW, 0)), 1)
  {
    hide Reachable, Step, Fails;
    WorkingReached();
    TwoReads(NEW, R.DEPLOYED, [], map[], map[], false);
    AnswerReaches(NEW, R.DEPLOYED, [], map[], map[], Status(NEW, false, Some(None), Some(0), false), BalanceRead, ApprovalFees(NEW));
    AnswerReaches(NEW, R.DEPLOYED, [], map[], map[], ApprovalFees(NEW), FeesRead, SendApproval(NEW));
    var w := Working(NEW, R.DEPLOYED, [], map[], map[], SendApproval(NEW));
    ReachesOn(w, 1, 1, Answer(0, SentHeard));
    ApprovalSigned();
  }

  lemma ApprovalSigned()
    ensures Step(Working(NEW, R.DEPLOYED, [], map[], map[], SendApproval(NEW)), 1, Answer(0, SentHeard))
            == Working(NEW, R.DEPLOYED, SIGNED, map[], map[], ApprovalReceipt(NEW, 0))
  {
    hide Fails;
  }

  const OURS := MyRow(APPROVED, Some(0))

  lemma ApprovalLands()
    ensures Step(Working(NEW, R.DEPLOYED, SIGNED, map[], map[], ApprovalReceipt(NEW, 0)), 1, Land(0, true))
            == Working(NEW, APPROVED_ME, SIGNED, map[0 := true], map[], ApprovalReceipt(NEW, 0))
  {
    var r := R.DEPLOYED;
    assert r.approvals + [R.Entry(5, 70)] == [R.Entry(5, 70)];
    assert R.ApproveClaimedInvitation(r, 1, 5, 70, R.USER_ROLE, 100) == Ok(APPROVED_ME);
  }

  lemma ApprovalHeard()
    ensures Step(Working(NEW, APPROVED_ME, SIGNED, map[0 := true], map[], ApprovalReceipt(NEW, 0)), 1, Answer(0, Receipt))
            == Working(OURS, APPROVED_ME, SIGNED, map[0 := true], map[], Status(OURS, true, None, None, false))
  {
    hide Fails;
  }

  lemma HearsApproval()
    ensures Reachable(Working(OURS, APPROVED_ME, SIGNED, map[0 := true], map[], Status(OURS, true, None, None, false)), 1)
  {
    hide Step, Reachable;
    SignsApproval();
    ApprovalLands();
    ReachesOn(Working(NEW, R.DEPLOYED, SIGNED, map[], map[], ApprovalReceipt(NEW, 0)), 1, 1, Land(0, true));
    ApprovalHeard();
    ReachesOn(Working(NEW, APPROVED_ME, SIGNED, map[0 := true], map[], ApprovalReceipt(NEW, 0)), 1, 1, Answer(0, Receipt));
  }

  lemma SignsFunding()
    ensures Reachable(Working(OURS, APPROVED_ME, SIGNED, map[0 := true], map[], SendFunding(OURS, 0)), 1)
  {
    hide Reachable, Step, Fails;
    HearsApproval();
    TwoReads(OURS, APPROVED_ME, SIGNED, map[0 := true], map[], true);
    AnswerReaches(OURS, APPROVED_ME, SIGNED, map[0 := true], map[], Status(OURS, true, Some(Some(MINE)), Some(5), false),
                  BalanceRead, FundingBalance(OURS));
    AnswerReaches(OURS, APPROVED_ME, SIGNED, map[0 := true], map[], FundingBalance(OURS), BalanceRead, FundingFees(OURS, 0));
    AnswerReaches(OURS, APPROVED_ME, SIGNED, map[0 := true], map[], FundingFees(OURS, 0), FeesRead, SendFunding(OURS, 0));
  }

  const FAILED := MyRow(FUNDING_FAILED, Some(0))
  const SENT := SIGNED + [Fund(1, 5, 6)]

  /** After the first run, with the funding under way. */
  function Resting(r: R.Registry, b: D.Book, receipts: map<nat, bool>): World {
    CLAIMED.(rows := map[1 := FAILED], registry := r, bank := b, sent := SENT, receipts := receipts,
             queue := [Job(1, Settled(false))], running := map[])
  }

  const PAID_ME := D.Book(map[5 := D.Profile(70, 1, true)], [D.Transfer(5, 70, 6, D.ETHER / 50, 1, false)], {6},
                          D.ETHER - D.ETHER / 50, false, D.ETHER, 0)
  const FUNDED_ME := APPROVED_ME.(participants := map[5 := MINE.(initialFundingCompleted := true)], fundings := [R.Entry(5, 70)])

  lemma FundingGoesThrough()
    ensures R.FundInitial(APPROVED_ME, RICH, 1, 5, 6, 0, true) == Ok((FUNDED_ME, PAID_ME))
  {
    var b := RICH.(profiles := map[5 := D.Profile(70, 1, true)]);
    assert RICH.profiles[5 := D.Profile(70, 1, true)] == b.profiles;
    var t := D.Transfer(5, 70, 6, D.ETHER / 50, 1, false);
    assert b.log + [t] == [t] && b.used + {6} == {6};
    assert D.TopUp(b, 1, 5, 70, 0, D.INITIAL_TARGET_BALANCE, 6, false, true) == Ok(PAID_ME);
    assert D.RegisterAndTopUp(RICH, 1, 5, 70, 0, 6, true) == Ok(PAID_ME);
    hide D.RegisterAndTopUp, D.TopUp;
    var r := APPROVED_ME;
    assert r.fundings + [R.Entry(5, 70)] == [R.Entry(5, 70)];
    assert R.WithFunding(r, 5) == FUNDED_ME;
  }

  lemma ReceiptLost()
    ensures Step(Working(OURS, APPROVED_ME, SIGNED, map[0 := true], map[], SendFunding(OURS, 0)), 1, Answer(0, SentUnheard))
            == Resting(APPROVED_ME, RICH, map[0 := true])
  {
  }

  lemma FundingLands()
    ensures Step(Resting(APPROVED_ME, RICH, map[0 := true]), 1, Land(1, true))
            == Resting(FUNDED_ME, PAID_ME, map[0 := true, 1 := true])
  {
    FundingGoesThrough();
    var w := Resting(APPROVED_ME, RICH, map[0 := true]);
    assert AtRegistry(w, CallOf(w.sent[1], true)) == R.CallFund(5, 6, 0, true);
    hide R.FundInitial;
  }

  lemma LosesReceipt()
    ensures Reachable(Resting(FUNDED_ME, PAID_ME, map[0 := true, 1 := true]), 1)
  {
    hide Step, Reachable;
    SignsFunding();
    ReceiptLost();
    ReachesOn(Working(OURS, APPROVED_ME, SIGNED, map[0 := true], map[], SendFunding(OURS, 0)), 1, 1, Answer(0, SentUnheard));
    FundingLands();
    ReachesOn(Resting(APPROVED_ME, RICH, map[0 := true]), 1, 1, Land(1, true));
  }

  /** The second run of the process, on the funded chain. */
  function Retrying(a: Await): World {
    Resting(FUNDED_ME, PAID_ME, map[0 := true, 1 := true]).(
      queue := [Job(1, Settled(false)), Job(1, Running(a))], running := map[1 := 1])
  }

  lemma Retries()
    ensures Reachable(Retrying(Status(FAILED, false, None, None, false)), 1)
  {
    LosesReceipt();
    var w0 := Resting(FUNDED_ME, PAID_ME, map[0 := true, 1 := true]);
    var w1 := w0.(queue := [Job(1, Settled(false)), Job(1, Waiting)], running := map[1 := 1]);
    assert Step(w0, 1, Process(1)) == w1;
    assert Step(w1, 1, Begin(1, 7, 8, 100)) == Retrying(Status(FAILED, false, None, None, false));
    hide Step, Reachable;
    ReachesOn(w0, 1, 1, Process(1));
    ReachesOn(w1, 1, 1, Begin(1, 7, 8, 100));
  }

  lemma RetryReads()
    ensures Reachable(Retrying(Status(FAILED, false, Some(Some(FUNDED_ME.participants[5])), Some(5), false)), 1)
  {
    Retries();
    hide Reachable, Decides, Fails;
    var funded := Some(FUNDED_ME.participants[5]);
    var w0, w1 := Retrying(Status(FAILED, false, None, None, false)), Retrying(Status(FAILED, false, Some(funded), None, false));
    assert Step(w0, 1, Answer(1, ParticipantRead)) == w1;
    assert Step(w1, 1, Answer(1, IndexRead)) == Retrying(Status(FAILED, false, Some(funded), Some(5), false));
    hide Step;
    ReachesOn(w0, 1, 1, Answer(1, ParticipantRead));
    ReachesOn(w1, 1, 1, Answer(1, IndexRead));
  }

  lemma RetryEnds()
    ensures var w := Step(Retrying(Status(FAILED, false, Some(Some(FUNDED_ME.participants[5])), Some(5), false)), 1,
                          Answer(1, BalanceRead));
            && 1 in w.rows && w.rows[1].state == FUNDED && w.rows[1].amount == Some(0) && w.rows[1].participant == 5
            && w.bank == PAID_ME
  {
    hide Fails;
  }

  /** A FUNDED row that records nothing although the distributor paid 0.02 ether. */
  lemma LostReceiptRecordsZero()
    ensures exists w, now ::
      && Reachable(w, now) && 1 in w.rows && w.rows[1].state == FUNDED && w.rows[1].amount == Some(0)
      && D.PaidInitially(w.bank.log, w.rows[1].participant) == D.ETHER / 50
  {
    hide Step, Reachable;
    RetryReads();
    RetryEnds();
    ReachesOn(Retrying(Status(FAILED, false, Some(Some(FUNDED_ME.participants[5])), Some(5), false)), 1, 1, Answer(1, BalanceRead));
    assert PAID_ME.log[..0] == [];
    assert D.PaidInitially(PAID_ME.log, 5) == D.ETHER / 50;
  }
}
