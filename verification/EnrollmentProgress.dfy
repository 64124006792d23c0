/**
 One process nobody else disturbs: every answer arrives and every transaction is included, each step
 at its own time, while the wallet may spend and receive. It always settles, and it succeeds exactly
 under conditions on the chain it found, the time its approval lands, and the time and balance its funding meets.
 */
module EnrollmentProgress {
  import opened Common
  import opened EnrollmentStore
  import opened Enrollment
  import opened EnrollmentInvariants
  import R = RegistryRules
  import D = DistributorRules

  /** What the process draws. */
  datatype Draw = Draw(participant: Hash, operation: Hash, expiresAt: uint64)

  /** One step: by how much others have moved the wallet's balance before it, its chain time, and whether the wallet takes a payment. */
  datatype Tick = Tick(now: uint64, moved: int, accepts: bool)

  /** The moment a funding lands: chain time, what the wallet then holds, and whether it takes a payment. */
  datatype Landing = Landing(now: uint64, walletBalance: nat, accepts: bool)

  predicate Chronological(ticks: seq<Tick>) {
    forall i, j :: 0 <= i < j < |ticks| ==> ticks[i].now <= ticks[j].now
  }

  /** What others move from the i-th tick up to the j-th, exclusively. */
  function MovedBy(ticks: seq<Tick>, i: nat, j: nat): int
    requires i <= j <= |ticks|
    decreases j
  {
    if i == j then 0 else MovedBy(ticks, i, j - 1) + ticks[j - 1].moved
  }

  lemma {:induction false} MovesAdd(ticks: seq<Tick>, i: nat, j: nat, k: nat)
    requires i <= j <= k <= |ticks|
    ensures MovedBy(ticks, i, k) == MovedBy(ticks, i, j) + MovedBy(ticks, j, k)
    decreases k
  {
    if j < k { MovesAdd(ticks, i, j, k - 1); }
  }

  function WalletOf(w: World, k: nat): Address
    requires k < |w.queue|
  {
    var id := w.queue[k].id;
    if id in w.invitations then w.invitations[id].wallet else 0
  }

  function Shift(w: World, a: Address, amount: int): World {
    w.(others := w.others[a := Read(w.others, a, 0) + amount])
  }

  /** What happens next if only this process moves. */
  function Own(w: World, k: nat, d: Draw, t: Tick): Event
    requires k < |w.queue|
  {
    match w.queue[k].phase
    case Waiting => Begin(k, d.participant, d.operation, d.expiresAt)
    case Settled(_) => Crash
    case Running(a) => if Pending(w, a) then Land(a.tx, t.accepts) else Answer(k, Good(a))
  }

  /** The answer a run gets when nothing goes wrong. */
  function Good(a: Await): Reply {
    match a
    case Status(_, _, participant, index, _) =>
      if participant.None? then ParticipantRead else if index.None? then IndexRead else BalanceRead
    case ApprovalFees(_) => FeesRead
    case SendApproval(_) => SentHeard
    case ApprovalReceipt(_, _) => Receipt
    case FundingBalance(_) => BalanceRead
    case FundingFees(_, _) => FeesRead
    case SendFunding(_, _) => SentHeard
    case FundingReceipt(_, _, _) => Receipt
    case FinalBalance(_, _, _) => BalanceRead
  }

  /** A transaction that is not included yet is what the run waits for. */
  predicate Pending(w: World, a: Await) {
    (a.ApprovalReceipt? || a.FundingReceipt?) && a.tx !in w.receipts
  }

  /** One tick: the wallet's balance moves, then the process does. */
  function Next(w: World, k: nat, d: Draw, t: Tick): World
    requires k < |w.queue|
  {
    var moved := Step(w, t.now, Moves(WalletOf(w, k), t.moved));
    Step(moved, t.now, Own(moved, k, d, t))
  }

  /** One tick after another from the i-th on, until the promise has settled. */
  function Drive(w: World, k: nat, d: Draw, ticks: seq<Tick>, i: nat): World
    decreases |ticks| - i
  {
    if i >= |ticks| || k >= |w.queue| || w.queue[k].phase.Settled? then w
    else Drive(Next(w, k, d, ticks[i]), k, d, ticks, i + 1)
  }

  /** Others never spend more than the wallet holds. */
  predicate Affordable(w: World, k: nat, d: Draw, ticks: seq<Tick>, i: nat)
    decreases |ticks| - i
  {
    i >= |ticks| || k >= |w.queue| || w.queue[k].phase.Settled?
    || (Holds(w, WalletOf(w, k)) + ticks[i].moved >= 0 && Affordable(Next(w, k, d, ticks[i]), k, d, ticks, i + 1))
  }

  lemma SettledStays(w: World, k: nat, d: Draw, ticks: seq<Tick>, i: nat)
    requires k < |w.queue| && w.queue[k].phase.Settled?
    ensures Drive(w, k, d, ticks, i) == w
  {
  }

  /** A tick is a shift of the balance and one own step. */
  lemma DriveOnce(w: World, k: nat, d: Draw, ticks: seq<Tick>, i: nat)
    requires i < |ticks| && k < |w.queue| && !w.queue[k].phase.Settled? && Affordable(w, k, d, ticks, i)
    ensures var t, m := ticks[i], Shift(w, WalletOf(w, k), ticks[i].moved);
            && Next(w, k, d, t) == Step(m, t.now, Own(m, k, d, t))
            && Drive(w, k, d, ticks, i) == Drive(Next(w, k, d, t), k, d, ticks, i + 1)
            && Affordable(Next(w, k, d, t), k, d, ticks, i + 1) && Holds(w, WalletOf(w, k)) + t.moved >= 0
  {
    MoveShifts(w, ticks[i].now, WalletOf(w, k), ticks[i].moved);
    hide Step, Own, Holds;
  }

  /** Shifting a wallet's balance shifts what it holds. */
  lemma ShiftHolds(w: World, a: Address, amount: int)
    requires 0 <= Balance(w.others, w.bank.log, a) && Holds(w, a) + amount >= 0
    ensures var m := Shift(w, a, amount);
            Holds(m, a) == Holds(w, a) + amount && 0 <= Balance(m.others, m.bank.log, a)
  {
  }

  // Conditions

  function InitialPayment(walletBalance: nat): nat {
    if walletBalance >= D.INITIAL_TARGET_BALANCE then 0 else D.INITIAL_TARGET_BALANCE - walletBalance
  }

  /** At that time the distributor would register the participant and bring the wallet to its initial target. */
  ghost predicate CanPay(b: D.Book, at: Landing, p: Hash, wallet: Address, operation: Hash) {
    var amount := InitialPayment(at.walletBalance);
    && !b.paused && p !in b.profiles && (forall q :: q in b.profiles ==> b.profiles[q].wallet != wallet)
    && (amount > 0 ==>
          && operation !in b.used && amount <= b.balance && at.accepts
          && amount <= D.DAILY_GLOBAL_BUDGET - D.PaidOn(b.log, D.DayOf(at.now)))
  }

  /** What the registry must allow when an approval of the row lands. */
  predicate Approvable(r: R.Registry, row: Row, at: uint64) {
    row.wallet !in r.ids && !r.paused && row.expiresAt > at && row.roles != 0 && row.roles & !R.ALL_ROLES == 0
  }

  /**
   What must hold for a row that is not FUNDED yet, given the chain the process finds, the time an
   approval of the row would land, and the moment its funding lands.
   */
  ghost predicate Fundable(r: R.Registry, b: D.Book, row: Row, approvalAt: uint64, funding: Landing) {
    if row.participant in r.participants then
      var v := r.participants[row.participant];
      && Matches(row, r) && v.active
      && (!v.initialFundingCompleted ==>
            && !r.paused && (v.registeredRoles != 0 || v.approvalExpiresAt >= funding.now)
            && CanPay(b, funding, row.participant, row.wallet, row.operation))
    else
      && Approvable(r, row, approvalAt) && row.expiresAt >= funding.now
      && CanPay(b, funding, row.participant, row.wallet, row.operation)
  }

  /** What a successful process records as the initial amount, and what the distributor has then initially paid. */
  datatype Money = Money(recorded: Option<nat>, paid: nat)

  /** stray: what others move between the two balance reads around a funding. */
  function MoneyFor(r: R.Registry, b: D.Book, row: Row, funding: Landing, stray: int): Money {
    if row.state == FUNDED then Money(row.amount, D.PaidInitially(b.log, row.participant))
    else if R.Funded(r, row.participant) then Money(Some(0), D.PaidInitially(b.log, row.participant))
    else
      var paid := InitialPayment(funding.walletBalance);
      Money(Some(if paid + stray > 0 then paid + stray else 0), paid)
  }

  /** The promise has settled, and if it succeeded the row is FUNDED with that money. */
  predicate Ends(w: World, k: nat, id: nat, ok: bool, money: Money) {
    && k < |w.queue| && w.queue[k] == Job(id, Settled(ok))
    && (ok ==>
          && id in w.rows && w.rows[id].state == FUNDED && w.rows[id].amount == money.recorded
          && D.PaidInitially(w.bank.log, w.rows[id].participant) == money.paid)
  }

  /** What a successful fundInitial pays, and whom. */
  predicate Pays(b: D.Book, b': D.Book, p: Hash, wallet: Address, amount: nat) {
    && D.PaidInitially(b'.log, p) == amount
    && D.PaidToWallet(b'.log, wallet) == D.PaidToWallet(b.log, wallet) + amount
  }

  /** For an approved participant without funding: exactly when fundInitial succeeds, and what is paid. */
  lemma WhenFundingSucceeds(r: R.Registry, b: D.Book, at: Landing, p: Hash, operation: Hash)
    requires R.ChainOk(r, b, at.now) && p in r.participants && !R.Funded(r, p) && operation != 0
    ensures var (v, result) := (r.participants[p], R.FundInitial(r, b, at.now, p, operation, at.walletBalance, at.accepts));
            && (result.Ok? <==>
                  && !r.paused && v.active && (v.registeredRoles != 0 || v.approvalExpiresAt >= at.now)
                  && CanPay(b, at, p, v.wallet, operation))
            && (result.Ok? ==> Pays(b, result.value.1, p, v.wallet, InitialPayment(at.walletBalance)))
  {
    var wallet := r.participants[p].wallet;
    assert p != 0 && wallet != 0;
    if p !in b.profiles {
      D.UnknownIsUnpaid(b, at.now, p);
      D.NothingPaid(b.log, p);
    }
    hide R.ChainOk;
    WhenRegistrationSucceeds(b, at, p, wallet, operation);
    hide D.RegisterAndTopUp;
  }

  lemma WhenRegistrationSucceeds(b: D.Book, at: Landing, p: Hash, wallet: Address, operation: Hash)
    requires p != 0 && wallet != 0 && operation != 0
    requires p !in b.profiles ==> D.PaidTo(b.log, p) == 0 && D.PaidInitially(b.log, p) == 0
    ensures var result := D.RegisterAndTopUp(b, at.now, p, wallet, at.walletBalance, operation, at.accepts);
            && (result.Ok? <==> CanPay(b, at, p, wallet, operation))
            && (result.Ok? ==> Pays(b, result.value, p, wallet, InitialPayment(at.walletBalance)))
  {
    var result := D.RegisterAndTopUp(b, at.now, p, wallet, at.walletBalance, operation, at.accepts);
    var b' := b.(profiles := b.profiles[p := D.Profile(wallet, at.now, true)]);
    if p !in b.profiles && at.walletBalance < D.INITIAL_TARGET_BALANCE {
      assert D.Wanted(b', p, at.walletBalance, D.INITIAL_TARGET_BALANCE) == InitialPayment(at.walletBalance);
      if result.Ok? { assert result.value.log[..|b.log|] == b.log; }
    }
  }

  // One tick at a time

  /** A run in progress, ready for its i-th tick. */
  ghost predicate At(w: World, start: uint64, k: nat, row: Row, ticks: seq<Tick>, i: nat, a: Await) {
    && WorldOk(w, start) && Frontier(w.queue, k) && w.queue[k].phase == Running(a)
    && w.queue[k].id in w.rows && w.rows[w.queue[k].id] == row && row.state != FUNDED
    && Chronological(ticks) && i < |ticks| && start <= ticks[i].now
  }

  lemma Known(w: World, start: uint64, k: nat, row: Row, ticks: seq<Tick>, i: nat, a: Await)
    requires At(w, start, k, row, ticks, i, a)
    ensures k < |w.queue| && w.queue[k].phase == Running(a) && i < |ticks| && row.state != FUNDED
    ensures w.queue[k].id in w.rows && w.rows[w.queue[k].id] == row && start <= ticks[i].now && WorldOk(w, start)
    ensures row.wallet == WalletOf(w, k) && 0 <= Balance(w.others, w.bank.log, row.wallet)
    ensures row.participant != 0 && row.operation != 0 && row.wallet != 0 && RowOk(row, w.registry)
    ensures R.ChainOk(w.registry, w.bank, ticks[i].now) && forall tx :: tx in w.receipts ==> tx < |w.sent|
  {
    R.LaterClock(w.registry, w.bank, start, ticks[i].now);
  }

  lemma NextKeeps(w: World, start: uint64, k: nat, d: Draw, t: Tick)
    requires WorldOk(w, start) && start <= t.now && k < |w.queue|
    ensures WorldOk(Next(w, k, d, t), t.now)
  {
    hide WorldOk, Step, Own;
    var event := Moves(WalletOf(w, k), t.moved);
    StepKeeps(w, start, t.now, event);
    var moved := Step(w, t.now, event);
    SameLength(w, t.now, WalletOf(w, k), t.moved);
    StepKeeps(moved, t.now, t.now, Own(moved, k, d, t));
  }

  lemma SameLength(w: World, now: uint64, a: Address, amount: int)
    ensures Step(w, now, Moves(a, amount)).queue == w.queue
  {
  }

  lemma MoveShifts(w: World, now: uint64, a: Address, amount: int)
    requires Holds(w, a) + amount >= 0
    ensures Step(w, now, Moves(a, amount)) == Shift(w, a, amount)
  {
    hide Holds;
  }

  /** A tick in which the run gets its answer. */
  lemma AnswerNext(w: World, k: nat, d: Draw, t: Tick, a: Await)
    requires k < |w.queue| && w.queue[k].phase == Running(a) && w.queue[k].id in w.rows && !Pending(w, a)
    requires Holds(w, WalletOf(w, k)) + t.moved >= 0
    ensures Next(w, k, d, t) == Continues(Shift(w, WalletOf(w, k), t.moved), k, a, Good(a))
  {
    hide Continues, Holds, Good, Pending;
    MoveShifts(w, t.now, WalletOf(w, k), t.moved);
    SamePending(w, WalletOf(w, k), t.moved, a);
  }

  /** A tick in which what the run waits for is included. */
  lemma LandNext(w: World, k: nat, d: Draw, t: Tick, a: Await)
    requires k < |w.queue| && w.queue[k].phase == Running(a) && Pending(w, a) && Holds(w, WalletOf(w, k)) + t.moved >= 0
    ensures Next(w, k, d, t) == Lands(Shift(w, WalletOf(w, k), t.moved), t.now, a.tx, t.accepts)
  {
    hide Lands, Holds;
    MoveShifts(w, t.now, WalletOf(w, k), t.moved);
  }

  lemma SamePending(w: World, account: Address, amount: int, a: Await)
    ensures Pending(Shift(w, account, amount), a) == Pending(w, a)
  {
  }

  /** A tick that leaves the run waiting for something else, the wallet's balance shifted. */
  lemma Ticked(w: World, start: uint64, k: nat, d: Draw, row: Row, ticks: seq<Tick>, i: nat, a: Await, a': Await, sent: seq<Sent>)
    requires At(w, start, k, row, ticks, i, a) && Affordable(w, k, d, ticks, i) && i + 1 < |ticks|
    requires Next(w, k, d, ticks[i]) == Waits(Shift(w, row.wallet, ticks[i].moved).(sent := sent), k, a')
    ensures var w1 := Next(w, k, d, ticks[i]);
            && At(w1, ticks[i].now, k, row, ticks, i + 1, a') && Affordable(w1, k, d, ticks, i + 1)
            && Drive(w, k, d, ticks, i) == Drive(w1, k, d, ticks, i + 1)
            && Holds(w, row.wallet) + ticks[i].moved >= 0 && Holds(w1, row.wallet) == Holds(w, row.wallet) + ticks[i].moved
  {
    hide WorldOk, Drive, Affordable, Next, RowOk, R.ChainOk, Balance;
    Known(w, start, k, row, ticks, i, a);
    DriveOnce(w, k, d, ticks, i);
    ShiftHolds(w, row.wallet, ticks[i].moved);
    NextKeeps(w, start, k, d, ticks[i]);
    var w1 := Next(w, k, d, ticks[i]);
    SameHoldings(Shift(w, row.wallet, ticks[i].moved), w1, row.wallet);
    hide Holds, RowOk;
  }

  lemma SameHoldings(w: World, w': World, a: Address)
    requires w'.others == w.others && w'.bank == w.bank
    ensures Holds(w', a) == Holds(w, a) && Balance(w'.others, w'.bank.log, a) == Balance(w.others, w.bank.log, a)
  {
  }

  // Outcomes

  function Floor(x: int): nat { if x < 0 then 0 else x }

  function FundingResult(w: World, row: Row, at: Landing): Result<(R.Registry, D.Book), R.Error> {
    R.FundInitial(w.registry, w.bank, at.now, row.participant, row.operation, at.walletBalance, at.accepts)
  }

  /** The moment the l-th tick is for a wallet that holds `held` before the i-th. */
  function LandingAt(held: int, ticks: seq<Tick>, i: nat, l: nat): Landing
    requires i <= l < |ticks|
  {
    Landing(ticks[l].now, Floor(held + MovedBy(ticks, i, l + 1)), ticks[l].accepts)
  }

  /** How a funding with its first balance read ends that lands at the l-th tick. */
  ghost predicate FundingEnds(w: World, k: nat, row: Row, before: nat, ticks: seq<Tick>, i: nat, l: nat, w': World)
    requires i <= l && l + 3 <= |ticks| && k < |w.queue|
  {
    var at := LandingAt(Holds(w, row.wallet), ticks, i, l);
    var paid := InitialPayment(at.walletBalance);
    && Holds(w, row.wallet) + MovedBy(ticks, i, l + 1) >= 0
    && Ends(w', k, w.queue[k].id, FundingResult(w, row, at).Ok?,
            Money(Some(Gain(before, Floor(at.walletBalance + paid + MovedBy(ticks, l + 1, l + 3)))), paid))
  }

  /** How a process ends whose funding, if it needs one, starts with the j-th tick. */
  ghost predicate ProcessEnds(w: World, k: nat, row: Row, ticks: seq<Tick>, i: nat, j: nat, approvalAt: uint64, w': World)
    requires i <= j && j + 6 <= |ticks| && k < |w.queue|
  {
    var funding := LandingAt(Holds(w, row.wallet), ticks, i, j + 3);
    Ends(w', k, w.queue[k].id, Fundable(w.registry, w.bank, row, approvalAt, funding),
         MoneyFor(w.registry, w.bank, row, funding, MovedBy(ticks, j + 1, j + 6)))
  }

  /** The same chain one tick earlier, the wallet's balance not yet moved. */
  predicate Before(w: World, w1: World, k: nat, a: Address, moved: int) {
    && w1.registry == w.registry && w1.bank == w.bank && k < |w.queue| && k < |w1.queue|
    && w1.queue[k].id == w.queue[k].id && Holds(w1, a) == Holds(w, a) + moved
  }

  lemma SameLanding(held: int, ticks: seq<Tick>, i: nat, l: nat)
    requires i < l < |ticks|
    ensures LandingAt(held + ticks[i].moved, ticks, i + 1, l) == LandingAt(held, ticks, i, l)
    ensures held + ticks[i].moved + MovedBy(ticks, i + 1, l + 1) == held + MovedBy(ticks, i, l + 1)
  {
    MovesAdd(ticks, i, i + 1, l + 1);
  }

  lemma FundingEndsEarlier(w: World, w1: World, k: nat, row: Row, before: nat, ticks: seq<Tick>, i: nat, l: nat, w': World)
    requires i < l && l + 3 <= |ticks| && Before(w, w1, k, row.wallet, ticks[i].moved)
    requires FundingEnds(w1, k, row, before, ticks, i + 1, l, w')
    ensures FundingEnds(w, k, row, before, ticks, i, l, w')
  {
    hide Ends, Holds, MovedBy, LandingAt, R.FundInitial;
    SameLanding(Holds(w, row.wallet), ticks, i, l);
  }

  lemma ProcessEndsEarlier(w: World, w1: World, k: nat, row: Row, ticks: seq<Tick>, i: nat, j: nat, approvalAt: uint64, w': World)
    requires i < j && j + 6 <= |ticks| && Before(w, w1, k, row.wallet, ticks[i].moved)
    requires ProcessEnds(w1, k, row, ticks, i + 1, j, approvalAt, w')
    ensures ProcessEnds(w, k, row, ticks, i, j, approvalAt, w')
  {
    SameLanding(Holds(w, row.wallet), ticks, i, j + 3);
    hide Ends, Holds, MovedBy, LandingAt, Fundable, MoneyFor;
  }

  // chain.fund, last await first

  lemma FinalNext(w: World, k: nat, d: Draw, row: Row, before: nat, tx: nat, t: Tick)
    requires k < |w.queue| && w.queue[k].phase == Running(FinalBalance(row, before, tx)) && w.queue[k].id in w.rows
    requires row == w.rows[w.queue[k].id] && row.wallet == WalletOf(w, k) && Holds(w, row.wallet) + t.moved >= 0
    requires 0 <= Balance(w.others, w.bank.log, row.wallet)
    ensures Ends(Next(w, k, d, t), k, w.queue[k].id, true,
                 Money(Some(Gain(before, Holds(w, row.wallet) + t.moved)), D.PaidInitially(w.bank.log, row.participant)))
  {
    hide Next, Step, Own, Holds, Balance;
    AnswerNext(w, k, d, t, FinalBalance(row, before, tx));
    ShiftHolds(w, row.wallet, t.moved);
  }

  lemma FinalStage(w: World, start: uint64, k: nat, d: Draw, row: Row, before: nat, tx: nat, ticks: seq<Tick>, i: nat)
    requires At(w, start, k, row, ticks, i, FinalBalance(row, before, tx)) && Affordable(w, k, d, ticks, i)
    ensures k < |w.queue| && Holds(w, row.wallet) + ticks[i].moved >= 0
    ensures Ends(Drive(w, k, d, ticks, i), k, w.queue[k].id, true,
                 Money(Some(Gain(before, Holds(w, row.wallet) + ticks[i].moved)), D.PaidInitially(w.bank.log, row.participant)))
  {
    Known(w, start, k, row, ticks, i, FinalBalance(row, before, tx));
    DriveOnce(w, k, d, ticks, i);
    FinalNext(w, k, d, row, before, tx, ticks[i]);
    hide WorldOk, Holds, Drive, Affordable, Next;
    SettledStays(Next(w, k, d, ticks[i]), k, d, ticks, i + 1);
  }

  lemma TwoMoves(ticks: seq<Tick>, i: nat)
    requires i + 2 <= |ticks|
    ensures MovedBy(ticks, i, i + 2) == ticks[i].moved + ticks[i + 1].moved
  {
    MovesAdd(ticks, i, i + 1, i + 2);
  }

  lemma FailureEnds(w: World, k: nat, id: nat)
    requires k < |w.queue| && w.queue[k] == Job(id, Settled(false))
    ensures forall money :: Ends(w, k, id, false, money)
  {
  }

  lemma FailsSettles(w: World, k: nat)
    requires k < |w.queue|
    ensures Fails(w, k).queue == w.queue[k := Job(w.queue[k].id, Settled(false))]
  {
  }

  lemma HeardNext(w: World, k: nat, d: Draw, row: Row, before: nat, tx: nat, t: Tick)
    requires k < |w.queue| && w.queue[k].phase == Running(FundingReceipt(row, before, tx)) && w.queue[k].id in w.rows
    requires row.wallet == WalletOf(w, k) && Holds(w, row.wallet) + t.moved >= 0 && tx in w.receipts
    ensures var m := Shift(w, row.wallet, t.moved);
            if w.receipts[tx] then Next(w, k, d, t) == Waits(m, k, FinalBalance(row, before, tx))
            else Next(w, k, d, t).queue == w.queue[k := Job(w.queue[k].id, Settled(false))]
  {
    hide Next, Step, Own, Holds;
    hide Fails;
    AnswerNext(w, k, d, t, FundingReceipt(row, before, tx));
    FailsSettles(Shift(w, row.wallet, t.moved), k);
  }

  /** The funding's receipt is heard. */
  lemma HeardStage(w: World, start: uint64, k: nat, d: Draw, row: Row, before: nat, tx: nat, ticks: seq<Tick>, i: nat)
    requires At(w, start, k, row, ticks, i, FundingReceipt(row, before, tx)) && Affordable(w, k, d, ticks, i)
    requires i + 2 <= |ticks| && tx in w.receipts
    ensures k < |w.queue|
    ensures Ends(Drive(w, k, d, ticks, i), k, w.queue[k].id, w.receipts[tx],
                 Money(Some(Gain(before, Floor(Holds(w, row.wallet) + MovedBy(ticks, i, i + 2)))),
                       D.PaidInitially(w.bank.log, row.participant)))
  {
    hide At, WorldOk, Drive, Affordable, Next, Holds, Balance, R.ChainOk, RowOk, MovedBy, Ends;
    Known(w, start, k, row, ticks, i, FundingReceipt(row, before, tx));
    DriveOnce(w, k, d, ticks, i);
    HeardNext(w, k, d, row, before, tx, ticks[i]);
    TwoMoves(ticks, i);
    if w.receipts[tx] {
      Ticked(w, start, k, d, row, ticks, i, FundingReceipt(row, before, tx), FinalBalance(row, before, tx), w.sent);
      FinalStage(Next(w, k, d, ticks[i]), ticks[i].now, k, d, row, before, tx, ticks, i + 1);
    } else {
      SettledStays(Next(w, k, d, ticks[i]), k, d, ticks, i + 1);
      FailureEnds(Next(w, k, d, ticks[i]), k, w.queue[k].id);
    }
  }

  /** The signed fundInitial is included; a payment raises what the wallet holds. */
  lemma LandedNext(w: World, k: nat, d: Draw, row: Row, before: nat, tx: nat, t: Tick)
    requires k < |w.queue| && w.queue[k].phase == Running(FundingReceipt(row, before, tx)) && row.wallet == WalletOf(w, k)
    requires tx < |w.sent| && tx !in w.receipts && w.sent[tx] == Fund(w.queue[k].id, row.participant, row.operation)
    requires 0 <= Balance(w.others, w.bank.log, row.wallet) && Holds(w, row.wallet) + t.moved >= 0 && Matches(row, w.registry)
    ensures var (at, w1) := (Landing(t.now, Holds(w, row.wallet) + t.moved, t.accepts), Next(w, k, d, t));
            var (m, result) := (Shift(w, row.wallet, t.moved), FundingResult(w, row, at));
            && w1 == m.(registry := if result.Ok? then result.value.0 else w.registry,
                        bank := if result.Ok? then result.value.1 else w.bank, receipts := w.receipts[tx := result.Ok?])
  {
    hide Next, Step, Own, R.FundInitial, Holds, Balance;
    var m, at := Shift(w, row.wallet, t.moved), Landing(t.now, Holds(w, row.wallet) + t.moved, t.accepts);
    ShiftHolds(w, row.wallet, t.moved);
    LandNext(w, k, d, t, FundingReceipt(row, before, tx));
    assert AtRegistry(m, CallOf(w.sent[tx], t.accepts))
      == R.CallFund(row.participant, row.operation, at.walletBalance, at.accepts);
    hide AtRegistry, CallOf;
  }

  /** A payment is held by the wallet it went to. */
  lemma PaymentHeld(m: World, w1: World, row: Row, amount: nat)
    requires w1.others == m.others && 0 <= Balance(m.others, m.bank.log, row.wallet)
    requires Pays(m.bank, w1.bank, row.participant, row.wallet, amount)
    ensures Holds(w1, row.wallet) == Holds(m, row.wallet) + amount
  {
  }

  /** What is known once the funding has landed. */
  lemma LandedStage(w: World, start: uint64, k: nat, d: Draw, row: Row, before: nat, tx: nat, ticks: seq<Tick>, i: nat)
    requires At(w, start, k, row, ticks, i, FundingReceipt(row, before, tx)) && Affordable(w, k, d, ticks, i)
    requires i + 3 <= |ticks| && tx < |w.sent| && tx !in w.receipts && Matches(row, w.registry)
    requires k < |w.queue| && w.sent[tx] == Fund(w.queue[k].id, row.participant, row.operation)
    requires !R.Funded(w.registry, row.participant)
    ensures var (held, w1) := (Holds(w, row.wallet) + ticks[i].moved, Next(w, k, d, ticks[i]));
            && held >= 0 && At(w1, ticks[i].now, k, row, ticks, i + 1, FundingReceipt(row, before, tx))
            && w1.queue == w.queue && tx in w1.receipts
            && var result := FundingResult(w, row, Landing(ticks[i].now, held, ticks[i].accepts));
            && w1.receipts[tx] == result.Ok?
            && (result.Ok? ==>
                  && Holds(w1, row.wallet) == held + InitialPayment(held)
                  && D.PaidInitially(w1.bank.log, row.participant) == InitialPayment(held))
  {
    hide At, WorldOk, R.ChainOk, R.FundInitial, CanPay, Drive, Affordable, Next, RowOk, Holds, Balance;
    Known(w, start, k, row, ticks, i, FundingReceipt(row, before, tx));
    DriveOnce(w, k, d, ticks, i);
    LandedNext(w, k, d, row, before, tx, ticks[i]);
    ShiftHolds(w, row.wallet, ticks[i].moved);
    NextKeeps(w, start, k, d, ticks[i]);
    var at, w1 := Landing(ticks[i].now, Holds(w, row.wallet) + ticks[i].moved, ticks[i].accepts), Next(w, k, d, ticks[i]);
    SameRun(w, w1, start, k, row, ticks, i, FundingReceipt(row, before, tx));
    WhenFundingSucceeds(w.registry, w.bank, at, row.participant, row.operation);
    if FundingResult(w, row, at).Ok? {
      PaymentHeld(Shift(w, row.wallet, ticks[i].moved), w1, row, InitialPayment(at.walletBalance));
    }
  }

  /** A step of the chain alone: the run waits on. */
  lemma SameRun(w: World, w1: World, start: uint64, k: nat, row: Row, ticks: seq<Tick>, i: nat, a: Await)
    requires At(w, start, k, row, ticks, i, a) && WorldOk(w1, ticks[i].now) && i + 1 < |ticks|
    requires w1.queue == w.queue && w1.rows == w.rows
    ensures At(w1, ticks[i].now, k, row, ticks, i + 1, a)
  {
    hide WorldOk;
  }

  /** From a signed fundInitial on: include it, hear of it, read the balance. */
  lemma ReceiptStage(w: World, start: uint64, k: nat, d: Draw, row: Row, before: nat, tx: nat, ticks: seq<Tick>, i: nat)
    requires At(w, start, k, row, ticks, i, FundingReceipt(row, before, tx)) && Affordable(w, k, d, ticks, i)
    requires i + 3 <= |ticks| && tx < |w.sent| && tx !in w.receipts && Matches(row, w.registry)
    requires k < |w.queue| && w.sent[tx] == Fund(w.queue[k].id, row.participant, row.operation)
    requires !R.Funded(w.registry, row.participant)
    ensures FundingEnds(w, k, row, before, ticks, i, i, Drive(w, k, d, ticks, i))
  {
    hide At, WorldOk, Drive, Affordable, Next, Holds, Balance, R.ChainOk, RowOk, MovedBy, Ends;
    hide FundingResult, R.Funded, Matches;
    Known(w, start, k, row, ticks, i, FundingReceipt(row, before, tx));
    DriveOnce(w, k, d, ticks, i);
    LandedStage(w, start, k, d, row, before, tx, ticks, i);
    OneMove(ticks, i);
    var w1 := Next(w, k, d, ticks[i]);
    HeardStage(w1, ticks[i].now, k, d, row, before, tx, ticks, i + 1);
    EndsFailed(Drive(w, k, d, ticks, i), k, w.queue[k].id);
  }

  lemma OneMove(ticks: seq<Tick>, i: nat)
    requires i < |ticks|
    ensures MovedBy(ticks, i, i + 1) == ticks[i].moved
  {
  }

  /** A failure ends with whatever money: none is recorded. */
  lemma EndsFailed(w: World, k: nat, id: nat)
    ensures forall money, money' :: Ends(w, k, id, false, money) ==> Ends(w, k, id, false, money')
  {
  }

  lemma SignNext(w: World, k: nat, d: Draw, row: Row, before: nat, t: Tick)
    requires k < |w.queue| && w.queue[k].phase == Running(SendFunding(row, before)) && w.queue[k].id in w.rows
    requires row.wallet == WalletOf(w, k) && Holds(w, row.wallet) + t.moved >= 0
    ensures Next(w, k, d, t)
            == Waits(Shift(w, row.wallet, t.moved).(sent := w.sent + [Fund(w.queue[k].id, row.participant, row.operation)]), k,
                     FundingReceipt(row, before, |w.sent|))
  {
    hide Next, Step, Own, Holds;
    AnswerNext(w, k, d, t, SendFunding(row, before));
  }

  lemma SignStage(w: World, start: uint64, k: nat, d: Draw, row: Row, before: nat, ticks: seq<Tick>, i: nat)
    requires At(w, start, k, row, ticks, i, SendFunding(row, before)) && Affordable(w, k, d, ticks, i)
    requires i + 4 <= |ticks| && Matches(row, w.registry) && !R.Funded(w.registry, row.participant)
    ensures k < |w.queue| && FundingEnds(w, k, row, before, ticks, i, i + 1, Drive(w, k, d, ticks, i))
  {
    hide At, WorldOk, Drive, Affordable, Next, Holds, Balance, R.ChainOk, RowOk, MovedBy, Ends;
    hide FundingEnds, R.Funded, Matches;
    Known(w, start, k, row, ticks, i, SendFunding(row, before));
    DriveOnce(w, k, d, ticks, i);
    SignNext(w, k, d, row, before, ticks[i]);
    var sent, w1 := w.sent + [Fund(w.queue[k].id, row.participant, row.operation)], Next(w, k, d, ticks[i]);
    Ticked(w, start, k, d, row, ticks, i, SendFunding(row, before), FundingReceipt(row, before, |w.sent|), sent);
    ReceiptStage(w1, ticks[i].now, k, d, row, before, |w.sent|, ticks, i + 1);
    FundingEndsEarlier(w, w1, k, row, before, ticks, i, i + 1, Drive(w, k, d, ticks, i));
  }

  lemma FeesNext(w: World, k: nat, d: Draw, row: Row, before: nat, t: Tick)
    requires k < |w.queue| && w.queue[k].phase == Running(FundingFees(row, before)) && w.queue[k].id in w.rows
    requires row.wallet == WalletOf(w, k) && Holds(w, row.wallet) + t.moved >= 0
    ensures Next(w, k, d, t) == Waits(Shift(w, row.wallet, t.moved), k, SendFunding(row, before))
  {
    hide Next, Step, Own, Holds;
    AnswerNext(w, k, d, t, FundingFees(row, before));
  }

  lemma FeesStage(w: World, start: uint64, k: nat, d: Draw, row: Row, before: nat, ticks: seq<Tick>, i: nat)
    requires At(w, start, k, row, ticks, i, FundingFees(row, before)) && Affordable(w, k, d, ticks, i)
    requires i + 5 <= |ticks| && Matches(row, w.registry) && !R.Funded(w.registry, row.participant)
    ensures k < |w.queue| && FundingEnds(w, k, row, before, ticks, i, i + 2, Drive(w, k, d, ticks, i))
  {
    hide At, WorldOk, Drive, Affordable, Next, Holds, Balance, R.ChainOk, RowOk, MovedBy, Ends;
    hide FundingEnds, R.Funded, Matches;
    Known(w, start, k, row, ticks, i, FundingFees(row, before));
    DriveOnce(w, k, d, ticks, i);
    FeesNext(w, k, d, row, before, ticks[i]);
    var w1 := Next(w, k, d, ticks[i]);
    Ticked(w, start, k, d, row, ticks, i, FundingFees(row, before), SendFunding(row, before), w.sent);
    SignStage(w1, ticks[i].now, k, d, row, before, ticks, i + 1);
    FundingEndsEarlier(w, w1, k, row, before, ticks, i, i + 2, Drive(w, k, d, ticks, i));
  }

  lemma BalanceNext(w: World, k: nat, d: Draw, row: Row, t: Tick)
    requires k < |w.queue| && w.queue[k].phase == Running(FundingBalance(row)) && w.queue[k].id in w.rows
    requires row.wallet == WalletOf(w, k) && Holds(w, row.wallet) + t.moved >= 0
    requires 0 <= Balance(w.others, w.bank.log, row.wallet)
    ensures Next(w, k, d, t) == Waits(Shift(w, row.wallet, t.moved), k, FundingFees(row, Holds(w, row.wallet) + t.moved))
  {
    hide Next, Step, Own, Holds, Balance;
    AnswerNext(w, k, d, t, FundingBalance(row));
    ShiftHolds(w, row.wallet, t.moved);
  }

  /** With the first read at the i-th tick and the last at the (i + 5)-th, the gain is the payment plus what strayed. */
  lemma GainIsPaymentAndStray(w: World, k: nat, row: Row, ticks: seq<Tick>, i: nat, w': World)
    requires i + 6 <= |ticks| && k < |w.queue| && Holds(w, row.wallet) + ticks[i].moved >= 0
    requires FundingEnds(w, k, row, Holds(w, row.wallet) + ticks[i].moved, ticks, i, i + 3, w')
    requires row.state != FUNDED && !R.Funded(w.registry, row.participant)
    ensures var funding := LandingAt(Holds(w, row.wallet), ticks, i, i + 3);
            Ends(w', k, w.queue[k].id, FundingResult(w, row, funding).Ok?,
                 MoneyFor(w.registry, w.bank, row, funding, MovedBy(ticks, i + 1, i + 6)))
  {
    hide Holds, Ends, R.FundInitial, R.Funded, MovedBy;
    OneMove(ticks, i);
    MovesAdd(ticks, i, i + 1, i + 4);
    MovesAdd(ticks, i + 1, i + 4, i + 6);
  }

  /** All of chain.fund: it lands at the fourth tick, and what is recorded is the balance's gain between the two reads. */
  lemma FundingStage(w: World, start: uint64, k: nat, d: Draw, row: Row, ticks: seq<Tick>, i: nat)
    requires At(w, start, k, row, ticks, i, FundingBalance(row)) && Affordable(w, k, d, ticks, i)
    requires i + 6 <= |ticks| && Matches(row, w.registry) && !R.Funded(w.registry, row.participant)
    ensures k < |w.queue|
    ensures var funding := LandingAt(Holds(w, row.wallet), ticks, i, i + 3);
            Ends(Drive(w, k, d, ticks, i), k, w.queue[k].id, FundingResult(w, row, funding).Ok?,
                 MoneyFor(w.registry, w.bank, row, funding, MovedBy(ticks, i + 1, i + 6)))
  {
    hide At, WorldOk, Drive, Affordable, Next, Holds, Balance, R.ChainOk, RowOk, MovedBy, Ends;
    hide R.Funded, Matches, R.FundInitial, FundingEnds;
    Known(w, start, k, row, ticks, i, FundingBalance(row));
    DriveOnce(w, k, d, ticks, i);
    BalanceNext(w, k, d, row, ticks[i]);
    var before, w1 := Holds(w, row.wallet) + ticks[i].moved, Next(w, k, d, ticks[i]);
    Ticked(w, start, k, d, row, ticks, i, FundingBalance(row), FundingFees(row, before), w.sent);
    FeesStage(w1, ticks[i].now, k, d, row, before, ticks, i + 1);
    FundingEndsEarlier(w, w1, k, row, before, ticks, i, i + 3, Drive(w, k, d, ticks, i));
    GainIsPaymentAndStray(w, k, row, ticks, i, Drive(w, k, d, ticks, i));
  }

  // From a reading of the chain on

  function ChainsAnswer(r: R.Registry, row: Row): Option<R.Participant> {
    if row.participant in r.participants then Some(r.participants[row.participant]) else None
  }

  /** The status await when n of its reads are answered by the chain as it is. */
  function Reading(r: R.Registry, row: Row, again: bool, n: nat): Await {
    Status(row, again, if n == 0 then None else Some(ChainsAnswer(r, row)),
           if n <= 1 then None else Some(Read(r.ids, row.wallet, 0)), false)
  }

  /** The tick with which chain.fund starts if the reads are in before the s-th: at once, or after an approval. */
  function FundingStart(r: R.Registry, row: Row, s: nat): nat { if row.participant in r.participants then s else s + 7 }

  /** A wallet bound to somebody else makes the row unfundable. */
  lemma WalletStanding(r: R.Registry, b: D.Book, now: uint64, row: Row)
    requires R.ChainOk(r, b, now)
    ensures var index := Read(r.ids, row.wallet, 0);
            index != 0 && index != row.participant ==>
              forall approvalAt, funding :: !Fundable(r, b, row, approvalAt, funding)
  {
    hide D.BookOk, R.HistoryOk, R.BooksAgree, R.RolesOk, CanPay;
  }

  /** Neither condition nor money looks at what confirming an approval changes in the row. */
  lemma SameForConfirmed(r: R.Registry, b: D.Book, row: Row, row': Row, approvalAt: uint64, funding: Landing, stray: int)
    requires row' == row.(state := row'.state, approvalTx := row'.approvalTx) && row.state != FUNDED && row'.state != FUNDED
    ensures Fundable(r, b, row, approvalAt, funding) == Fundable(r, b, row', approvalAt, funding)
    ensures MoneyFor(r, b, row, funding, stray) == MoneyFor(r, b, row', funding, stray)
  {
    hide CanPay;
  }

  /** An approval was found: compare, then fund or record the funding the chain already has. */
  lemma ApprovedStage(x: World, now: uint64, k: nat, d: Draw, row: Row, ticks: seq<Tick>, i: nat, approvalAt: uint64)
    requires k < |x.queue| && x.queue[k].id in x.rows && x.rows[x.queue[k].id] == row && row.state != FUNDED
    requires row.participant in x.registry.participants && Frontier(x.queue, k)
    requires var w := Approved2(x, k, row, ChainsAnswer(x.registry, row));
             WorldOk(w, now) && Affordable(w, k, d, ticks, i)
    requires Chronological(ticks) && i + 6 <= |ticks| && now <= ticks[i].now
    ensures ProcessEnds(x, k, row, ticks, i, i, approvalAt,
                        Drive(Approved2(x, k, row, ChainsAnswer(x.registry, row)), k, d, ticks, i))
  {
    hide WorldOk, Affordable, Drive, Chronological, Holds, MovedBy, ProcessEnds, Frontier;
    var w := Approved2(x, k, row, ChainsAnswer(x.registry, row));
    if Matches(row, x.registry) && x.registry.participants[row.participant].active && !R.Funded(x.registry, row.participant) {
      ReadyToFund(x, w, now, k, row, ticks, i);
      StartsFunding(x, w, now, k, d, row, ticks, i, approvalAt);
    } else {
      SettledStays(w, k, d, ticks, i);
      ComparedEnds(x, k, row, ticks, i, approvalAt);
    }
  }

  /** The approval matches and there is no funding yet. */
  lemma StartsFunding(x: World, w: World, now: uint64, k: nat, d: Draw, row: Row, ticks: seq<Tick>, i: nat, approvalAt: uint64)
    requires k < |x.queue| && w == Waits(x, k, FundingBalance(row)) && At(w, now, k, row, ticks, i, FundingBalance(row))
    requires row.participant in x.registry.participants && Matches(row, x.registry) && !R.Funded(x.registry, row.participant)
    requires x.registry.participants[row.participant].active && Affordable(w, k, d, ticks, i) && i + 6 <= |ticks|
    ensures ProcessEnds(x, k, row, ticks, i, i, approvalAt, Drive(w, k, d, ticks, i))
  {
    hide At, WorldOk, Affordable, Drive, CanPay, Holds, MovedBy, R.FundInitial, R.ChainOk, RowOk, Ends, MoneyFor;
    Known(w, now, k, row, ticks, i, FundingBalance(row));
    SameHoldings(x, w, row.wallet);
    var funding := LandingAt(Holds(x, row.wallet), ticks, i, i + 3);
    LandsAfter(w, now, k, row, ticks, i, FundingBalance(row));
    WhenFundingSucceeds(w.registry, w.bank, funding, row.participant, row.operation);
    FundingStage(w, now, k, d, row, ticks, i);
  }

  /** The approval differs, is no longer active, or is funded already. */
  lemma ComparedEnds(x: World, k: nat, row: Row, ticks: seq<Tick>, i: nat, approvalAt: uint64)
    requires k < |x.queue| && x.queue[k].id in x.rows && x.rows[x.queue[k].id] == row && row.state != FUNDED
    requires row.participant in x.registry.participants && i + 6 <= |ticks|
    requires !Matches(row, x.registry) || !x.registry.participants[row.participant].active
             || R.Funded(x.registry, row.participant)
    ensures ProcessEnds(x, k, row, ticks, i, i, approvalAt, Approved2(x, k, row, ChainsAnswer(x.registry, row)))
  {
    hide CanPay, Holds, MovedBy;
  }

  lemma ReadyToFund(x: World, w: World, now: uint64, k: nat, row: Row, ticks: seq<Tick>, i: nat)
    requires k < |x.queue| && w == Waits(x, k, FundingBalance(row)) && WorldOk(w, now) && Frontier(x.queue, k)
    requires x.queue[k].id in x.rows && x.rows[x.queue[k].id] == row && row.state != FUNDED
    requires Chronological(ticks) && i < |ticks| && now <= ticks[i].now
    ensures At(w, now, k, row, ticks, i, FundingBalance(row))
  {
    hide WorldOk, Chronological;
  }

  lemma LandsAfter(w: World, now: uint64, k: nat, row: Row, ticks: seq<Tick>, i: nat, a: Await)
    requires At(w, now, k, row, ticks, i, a) && i + 6 <= |ticks|
    ensures R.ChainOk(w.registry, w.bank, ticks[i + 3].now)
  {
    R.LaterClock(w.registry, w.bank, now, ticks[i + 3].now);
  }

  /** The last read comes in and the process decides. */
  lemma DecisionNext(w: World, k: nat, d: Draw, row: Row, again: bool, t: Tick)
    requires k < |w.queue| && w.queue[k].phase == Running(Reading(w.registry, row, again, 2)) && w.queue[k].id in w.rows
    requires row.wallet == WalletOf(w, k) && Holds(w, row.wallet) + t.moved >= 0
    ensures Next(w, k, d, t)
            == Decides(Shift(w, row.wallet, t.moved), k, row, again, ChainsAnswer(w.registry, row), Read(w.registry.ids, row.wallet, 0))
  {
    hide Next, Step, Own, Holds;
    hide Decides;
    AnswerNext(w, k, d, t, Reading(w.registry, row, again, 2));
  }

  /** The world in which the process compares, if it found an approval: seen, and recorded if it was not. */
  function Found(w: World, k: nat, row: Row, again: bool, moved: int): World
    requires k < |w.queue|
  {
    var m, id := Shift(w, row.wallet, moved), w.queue[k].id;
    if again then m
    else m.(seen := m.seen + {id}, rows := if InFundingPhase(row.state) then m.rows else Approved(m.rows, id, row.approvalTx))
  }

  lemma DecidesFound(w: World, k: nat, row: Row, again: bool, moved: int)
    requires k < |w.queue| && w.queue[k].id in w.rows && w.rows[w.queue[k].id] == row && row.state != FUNDED
    requires row.participant in w.registry.participants
    requires var index := Read(w.registry.ids, row.wallet, 0); again || index == 0 || index == row.participant
    ensures var (x, id) := (Found(w, k, row, again, moved), w.queue[k].id);
            && x.queue == w.queue && x.registry == w.registry && x.bank == w.bank
            && x.others == Shift(w, row.wallet, moved).others && id in x.rows
            && x.rows[id] == row.(state := x.rows[id].state, approvalTx := x.rows[id].approvalTx) && x.rows[id].state != FUNDED
            && Decides(Shift(w, row.wallet, moved), k, row, again, ChainsAnswer(w.registry, row), Read(w.registry.ids, row.wallet, 0))
               == Approved2(x, k, x.rows[id], ChainsAnswer(x.registry, x.rows[id]))
  {
    hide Approved2;
  }

  /** All reads but the last are in. */
  lemma DecisionStage(w: World, start: uint64, k: nat, d: Draw, row: Row, again: bool, ticks: seq<Tick>, i: nat)
    requires At(w, start, k, row, ticks, i, Reading(w.registry, row, again, 2)) && Affordable(w, k, d, ticks, i)
    requires (again ==> row.participant in w.registry.participants) && FundingStart(w.registry, row, i + 1) + 6 <= |ticks|
    ensures k < |w.queue|
    ensures ProcessEnds(w, k, row, ticks, i, FundingStart(w.registry, row, i + 1), ticks[i + 3].now, Drive(w, k, d, ticks, i))
    decreases |ticks| - i, 0
  {
    hide At, WorldOk, Drive, Affordable, Next, Holds, Balance, R.ChainOk, RowOk, MovedBy, Decides, ProcessEnds;
    var a := Reading(w.registry, row, again, 2);
    Known(w, start, k, row, ticks, i, a);
    DriveOnce(w, k, d, ticks, i);
    DecisionNext(w, k, d, row, again, ticks[i]);
    var index := Read(w.registry.ids, row.wallet, 0);
    if !again && index != 0 && index != row.participant {
      WalletStanding(w.registry, w.bank, ticks[i].now, row);
      RefusedStage(w, k, d, row, ticks, i, FundingStart(w.registry, row, i + 1), ticks[i + 3].now);
    } else if row.participant in w.registry.participants {
      FoundStage(w, start, k, d, row, again, ticks, i, ticks[i + 3].now);
    } else {
      assert Next(w, k, d, ticks[i]) == Waits(Shift(w, row.wallet, ticks[i].moved), k, ApprovalFees(row)) by {
        NeedsApproval(w, k, row, ticks[i].moved);
      }
      Ticked(w, start, k, d, row, ticks, i, a, ApprovalFees(row), w.sent);
      var w1 := Next(w, k, d, ticks[i]);
      ApprovalStage(w1, ticks[i].now, k, d, row, ticks, i + 1);
      ProcessEndsEarlier(w, w1, k, row, ticks, i, i + 8, ticks[i + 3].now, Drive(w, k, d, ticks, i));
    }
  }

  lemma NeedsApproval(w: World, k: nat, row: Row, moved: int)
    requires k < |w.queue| && w.queue[k].id in w.rows && row.participant !in w.registry.participants
    requires var index := Read(w.registry.ids, row.wallet, 0); index == 0 || index == row.participant
    ensures Decides(Shift(w, row.wallet, moved), k, row, false, ChainsAnswer(w.registry, row), Read(w.registry.ids, row.wallet, 0))
            == Waits(Shift(w, row.wallet, moved), k, ApprovalFees(row))
  {
  }

  /** The wallet belongs to somebody else. */
  lemma RefusedStage(w: World, k: nat, d: Draw, row: Row, ticks: seq<Tick>, i: nat, j: nat, approvalAt: uint64)
    requires i < |ticks| && i <= j && j + 6 <= |ticks| && k < |w.queue| && w.queue[k].id in w.rows
    requires Next(w, k, d, ticks[i]) == Decides(Shift(w, row.wallet, ticks[i].moved), k, row, false,
                                                ChainsAnswer(w.registry, row), Read(w.registry.ids, row.wallet, 0))
    requires var index := Read(w.registry.ids, row.wallet, 0); index != 0 && index != row.participant
    requires forall at, funding :: !Fundable(w.registry, w.bank, row, at, funding)
    requires Drive(w, k, d, ticks, i) == Drive(Next(w, k, d, ticks[i]), k, d, ticks, i + 1)
    ensures ProcessEnds(w, k, row, ticks, i, j, approvalAt, Drive(w, k, d, ticks, i))
  {
    hide Fundable, Holds, MovedBy, Next, MoneyFor;
    SettledStays(Next(w, k, d, ticks[i]), k, d, ticks, i + 1);
  }

  /** An approval was there. */
  lemma FoundStage(w: World, start: uint64, k: nat, d: Draw, row: Row, again: bool, ticks: seq<Tick>, i: nat, approvalAt: uint64)
    requires At(w, start, k, row, ticks, i, Reading(w.registry, row, again, 2)) && Affordable(w, k, d, ticks, i)
    requires row.participant in w.registry.participants && i + 7 <= |ticks|
    requires var index := Read(w.registry.ids, row.wallet, 0); again || index == 0 || index == row.participant
    ensures k < |w.queue| && ProcessEnds(w, k, row, ticks, i, i + 1, approvalAt, Drive(w, k, d, ticks, i))
  {
    hide At, WorldOk, Drive, Affordable, Next, Holds, Balance, R.ChainOk, RowOk, MovedBy, Decides, ProcessEnds, Approved2, Found;
    var a := Reading(w.registry, row, again, 2);
    Known(w, start, k, row, ticks, i, a);
    DriveOnce(w, k, d, ticks, i);
    DecisionNext(w, k, d, row, again, ticks[i]);
    DecidesFound(w, k, row, again, ticks[i].moved);
    ShiftHolds(w, row.wallet, ticks[i].moved);
    NextKeeps(w, start, k, d, ticks[i]);
    InTurn(w, start, k, row, ticks, i, a);
    var x := Found(w, k, row, again, ticks[i].moved);
    var row' := x.rows[w.queue[k].id];
    SameHoldings(Shift(w, row.wallet, ticks[i].moved), x, row.wallet);
    ApprovedStage(x, ticks[i].now, k, d, row', ticks, i + 1, approvalAt);
    ConfirmedEnds(x, k, row, row', ticks, i + 1, i + 1, approvalAt, Drive(w, k, d, ticks, i));
    ProcessEndsEarlier(w, x, k, row, ticks, i, i + 1, approvalAt, Drive(w, k, d, ticks, i));
  }

  lemma InTurn(w: World, start: uint64, k: nat, row: Row, ticks: seq<Tick>, i: nat, a: Await)
    requires At(w, start, k, row, ticks, i, a)
    ensures Frontier(w.queue, k) && Chronological(ticks) && (i + 1 < |ticks| ==> ticks[i].now <= ticks[i + 1].now)
  {
  }

  lemma ReadNext(w: World, k: nat, d: Draw, row: Row, again: bool, n: nat, t: Tick)
    requires k < |w.queue| && w.queue[k].phase == Running(Reading(w.registry, row, again, n)) && w.queue[k].id in w.rows
    requires n < 2 && row.wallet == WalletOf(w, k) && Holds(w, row.wallet) + t.moved >= 0
    ensures Next(w, k, d, t) == Waits(Shift(w, row.wallet, t.moved), k, Reading(w.registry, row, again, n + 1))
  {
    hide Next, Step, Own, Holds;
    hide Decides;
    AnswerNext(w, k, d, t, Reading(w.registry, row, again, n));
  }

  /** From n answered reads on. */
  lemma {:induction false} ReadStage(w: World, start: uint64, k: nat, d: Draw, row: Row, again: bool, n: nat, ticks: seq<Tick>,
                                     i: nat)
    requires At(w, start, k, row, ticks, i, Reading(w.registry, row, again, n)) && Affordable(w, k, d, ticks, i) && n <= 2
    requires again ==> row.participant in w.registry.participants
    requires FundingStart(w.registry, row, i + 3 - n) + 6 <= |ticks|
    ensures k < |w.queue|
    ensures ProcessEnds(w, k, row, ticks, i, FundingStart(w.registry, row, i + 3 - n), ticks[i + 5 - n].now,
                        Drive(w, k, d, ticks, i))
    decreases |ticks| - i, 1
  {
    hide At, WorldOk, Drive, Affordable, Next, Holds, Balance, R.ChainOk, RowOk, MovedBy, ProcessEnds;
    if n == 2 {
      DecisionStage(w, start, k, d, row, again, ticks, i);
    } else {
      var a, a' := Reading(w.registry, row, again, n), Reading(w.registry, row, again, n + 1);
      Known(w, start, k, row, ticks, i, a);
      DriveOnce(w, k, d, ticks, i);
      ReadNext(w, k, d, row, again, n, ticks[i]);
      Ticked(w, start, k, d, row, ticks, i, a, a', w.sent);
      var w1 := Next(w, k, d, ticks[i]);
      ReadStage(w1, ticks[i].now, k, d, row, again, n + 1, ticks, i + 1);
      ProcessEndsEarlier(w, w1, k, row, ticks, i, FundingStart(w.registry, row, i + 3 - n), ticks[i + 5 - n].now,
                         Drive(w, k, d, ticks, i));
    }
  }

  // chain.approve

  /** An approval that lands leaves the time of the funding and the distributor to decide. */
  lemma ApprovalThenFunding(r: R.Registry, b: D.Book, row: Row, approvalAt: uint64, funding: Landing, stray: int)
    requires row.participant != 0 && row.wallet != 0 && row.participant !in r.participants && row.state != FUNDED
    ensures var result := R.ApproveClaimedInvitation(r, approvalAt, row.participant, row.wallet, row.roles, row.expiresAt);
            && (!result.Ok? ==> !Fundable(r, b, row, approvalAt, funding))
            && (result.Ok? ==>
                  && row.participant in result.value.participants
                  && (Fundable(r, b, row, approvalAt, funding) <==> Fundable(result.value, b, row, approvalAt, funding))
                  && MoneyFor(r, b, row, funding, stray) == MoneyFor(result.value, b, row, funding, stray))
  {
    hide CanPay;
  }

  lemma HeardApprovalNext(w: World, k: nat, d: Draw, row: Row, tx: nat, t: Tick)
    requires k < |w.queue| && w.queue[k].phase == Running(ApprovalReceipt(row, tx)) && w.queue[k].id in w.rows
    requires w.rows[w.queue[k].id] == row && row.state != FUNDED
    requires row.wallet == WalletOf(w, k) && Holds(w, row.wallet) + t.moved >= 0 && tx in w.receipts
    ensures var (m, w1, id) := (Shift(w, row.wallet, t.moved), Next(w, k, d, t), w.queue[k].id);
            if w.receipts[tx] then
              && id in w1.rows && w1.rows[id] == row.(state := w1.rows[id].state, approvalTx := w1.rows[id].approvalTx)
              && w1.rows[id].state != FUNDED && w1.registry == w.registry && w1.bank == w.bank && w1.others == m.others
              && w1.queue == w.queue[k := Job(id, Running(Status(w1.rows[id], true, None, None, false)))]
            else w1.queue == w.queue[k := Job(id, Settled(false))]
  {
    hide Next, Step, Own, Holds;
    hide Fails;
    AnswerNext(w, k, d, t, ApprovalReceipt(row, tx));
    FailsSettles(Shift(w, row.wallet, t.moved), k);
  }

  /** The approval's receipt is heard: read again, or fail. */
  lemma HeardApprovalStage(w: World, start: uint64, k: nat, d: Draw, row: Row, tx: nat, ticks: seq<Tick>, i: nat, approvalAt: uint64)
    requires At(w, start, k, row, ticks, i, ApprovalReceipt(row, tx)) && Affordable(w, k, d, ticks, i)
    requires tx in w.receipts && i + 10 <= |ticks|
    requires w.receipts[tx] ==> row.participant in w.registry.participants
    ensures k < |w.queue|
    ensures w.receipts[tx] ==> ProcessEnds(w, k, row, ticks, i, i + 4, approvalAt, Drive(w, k, d, ticks, i))
    ensures !w.receipts[tx] ==> forall money :: Ends(Drive(w, k, d, ticks, i), k, w.queue[k].id, false, money)
    decreases |ticks| - i, 0
  {
    hide At, WorldOk, Drive, Affordable, Next, Holds, Balance, R.ChainOk, RowOk, MovedBy, ProcessEnds, Ends;
    var a := ApprovalReceipt(row, tx);
    Known(w, start, k, row, ticks, i, a);
    DriveOnce(w, k, d, ticks, i);
    HeardApprovalNext(w, k, d, row, tx, ticks[i]);
    ShiftHolds(w, row.wallet, ticks[i].moved);
    var w1 := Next(w, k, d, ticks[i]);
    if w.receipts[tx] {
      NextKeeps(w, start, k, d, ticks[i]);
      SameHoldings(Shift(w, row.wallet, ticks[i].moved), w1, row.wallet);
      var row' := w1.rows[w.queue[k].id];
      ReadsAgain(w, w1, start, k, row, row', ticks, i, a);
      ReadStage(w1, ticks[i].now, k, d, row', true, 0, ticks, i + 1);
      AnyApprovalTime(w1, k, row', ticks, i + 1, i + 4, ticks[i + 6].now, approvalAt, Drive(w, k, d, ticks, i));
      ConfirmedEnds(w1, k, row, row', ticks, i + 1, i + 4, approvalAt, Drive(w, k, d, ticks, i));
      ProcessEndsEarlier(w, w1, k, row, ticks, i, i + 4, approvalAt, Drive(w, k, d, ticks, i));
    } else {
      SettledStays(w1, k, d, ticks, i + 1);
      FailureEnds(w1, k, w.queue[k].id);
    }
  }

  lemma ReadsAgain(w: World, w1: World, start: uint64, k: nat, row: Row, row': Row, ticks: seq<Tick>, i: nat, a: Await)
    requires At(w, start, k, row, ticks, i, a) && WorldOk(w1, ticks[i].now) && i + 1 < |ticks| && k < |w.queue|
    requires w1.queue == w.queue[k := Job(w.queue[k].id, Running(Status(row', true, None, None, false)))]
    requires w.queue[k].id in w1.rows && w1.rows[w.queue[k].id] == row' && row'.state != FUNDED
    ensures At(w1, ticks[i].now, k, row', ticks, i + 1, Reading(w1.registry, row', true, 0))
  {
    hide WorldOk;
  }

  lemma ConfirmedEnds(x: World, k: nat, row: Row, row': Row, ticks: seq<Tick>, i: nat, j: nat, approvalAt: uint64, w': World)
    requires row' == row.(state := row'.state, approvalTx := row'.approvalTx) && row.state != FUNDED && row'.state != FUNDED
    requires i <= j && j + 6 <= |ticks| && k < |x.queue| && ProcessEnds(x, k, row', ticks, i, j, approvalAt, w')
    ensures ProcessEnds(x, k, row, ticks, i, j, approvalAt, w')
  {
    hide Fundable, MoneyFor, Holds, MovedBy, Ends;
    SameForConfirmed(x.registry, x.bank, row, row', approvalAt, LandingAt(Holds(x, row.wallet), ticks, i, j + 3),
                     MovedBy(ticks, j + 1, j + 6));
  }

  lemma AnyApprovalTime(x: World, k: nat, row: Row, ticks: seq<Tick>, i: nat, j: nat, at: uint64, at': uint64, w': World)
    requires i <= j && j + 6 <= |ticks| && k < |x.queue| && row.participant in x.registry.participants
    requires ProcessEnds(x, k, row, ticks, i, j, at, w')
    ensures ProcessEnds(x, k, row, ticks, i, j, at', w')
  {
    hide CanPay, MoneyFor, Holds, MovedBy, Ends;
  }

  lemma LandedApprovalNext(w: World, k: nat, d: Draw, row: Row, tx: nat, t: Tick)
    requires k < |w.queue| && w.queue[k].phase == Running(ApprovalReceipt(row, tx)) && row.wallet == WalletOf(w, k)
    requires tx < |w.sent| && tx !in w.receipts && Holds(w, row.wallet) + t.moved >= 0
    requires w.sent[tx] == Approve(w.queue[k].id, row.participant, row.wallet, row.roles, row.expiresAt)
    ensures var result := R.ApproveClaimedInvitation(w.registry, t.now, row.participant, row.wallet, row.roles, row.expiresAt);
            Next(w, k, d, t)
            == Shift(w, row.wallet, t.moved).(registry := if result.Ok? then result.value else w.registry,
                                              receipts := w.receipts[tx := result.Ok?])
  {
    hide Next, Step, Own, Holds;
    hide R.ApproveClaimedInvitation;
    LandNext(w, k, d, t, ApprovalReceipt(row, tx));
  }

  /** The approval lands: it succeeds or reverts at that time. */
  lemma LandedApprovalStage(w: World, start: uint64, k: nat, d: Draw, row: Row, tx: nat, ticks: seq<Tick>, i: nat)
    requires At(w, start, k, row, ticks, i, ApprovalReceipt(row, tx)) && Affordable(w, k, d, ticks, i)
    requires tx < |w.sent| && tx !in w.receipts && i + 11 <= |ticks| && k < |w.queue|
    requires w.sent[tx] == Approve(w.queue[k].id, row.participant, row.wallet, row.roles, row.expiresAt)
    requires row.participant !in w.registry.participants
    ensures ProcessEnds(w, k, row, ticks, i, i + 5, ticks[i].now, Drive(w, k, d, ticks, i))
    decreases |ticks| - i, 0
  {
    hide At, WorldOk, Drive, Affordable, Next, Holds, Balance, R.ChainOk, RowOk, MovedBy, ProcessEnds, Ends;
    hide R.ApproveClaimedInvitation;
    var a := ApprovalReceipt(row, tx);
    Known(w, start, k, row, ticks, i, a);
    DriveOnce(w, k, d, ticks, i);
    LandedApprovalNext(w, k, d, row, tx, ticks[i]);
    ShiftHolds(w, row.wallet, ticks[i].moved);
    NextKeeps(w, start, k, d, ticks[i]);
    var w1 := Next(w, k, d, ticks[i]);
    SameHoldings(Shift(w, row.wallet, ticks[i].moved), w1, row.wallet);
    SameRun(w, w1, start, k, row, ticks, i, a);
    Approves(w.registry, row, ticks[i].now);
    HeardApprovalStage(w1, ticks[i].now, k, d, row, tx, ticks, i + 1, ticks[i].now);
    ApprovalEndsEarlier(w, w1, k, row, tx, ticks, i, Drive(w, k, d, ticks, i));
  }

  lemma Approves(r: R.Registry, row: Row, at: uint64)
    ensures var result := R.ApproveClaimedInvitation(r, at, row.participant, row.wallet, row.roles, row.expiresAt);
            result.Ok? ==> row.participant in result.value.participants && !R.Funded(result.value, row.participant)
  {
  }

  lemma ApprovalEndsEarlier(w: World, w1: World, k: nat, row: Row, tx: nat, ticks: seq<Tick>, i: nat, w': World)
    requires i + 11 <= |ticks| && k < |w.queue| && k < |w1.queue| && w1.queue[k].id == w.queue[k].id && w1.bank == w.bank
    requires Holds(w1, row.wallet) == Holds(w, row.wallet) + ticks[i].moved && row.state != FUNDED
    requires row.participant != 0 && row.wallet != 0 && row.participant !in w.registry.participants
    requires var result := R.ApproveClaimedInvitation(w.registry, ticks[i].now, row.participant, row.wallet, row.roles, row.expiresAt);
             if result.Ok? then
               w1.registry == result.value && ProcessEnds(w1, k, row, ticks, i + 1, i + 5, ticks[i].now, w')
             else forall money :: Ends(w', k, w.queue[k].id, false, money)
    ensures ProcessEnds(w, k, row, ticks, i, i + 5, ticks[i].now, w')
  {
    hide Fundable, MoneyFor, Holds, MovedBy, Ends, LandingAt, R.ApproveClaimedInvitation;
    SameLanding(Holds(w, row.wallet), ticks, i, i + 8);
    ApprovalThenFunding(w.registry, w.bank, row, ticks[i].now, LandingAt(Holds(w, row.wallet), ticks, i, i + 8),
                        MovedBy(ticks, i + 6, i + 11));
  }

  lemma SignApprovalNext(w: World, k: nat, d: Draw, row: Row, t: Tick)
    requires k < |w.queue| && w.queue[k].phase == Running(SendApproval(row)) && w.queue[k].id in w.rows
    requires row.wallet == WalletOf(w, k) && Holds(w, row.wallet) + t.moved >= 0
    ensures Next(w, k, d, t)
            == Waits(Shift(w, row.wallet, t.moved).(sent := w.sent + [Approve(w.queue[k].id, row.participant, row.wallet,
                                                                              row.roles, row.expiresAt)]), k,
                     ApprovalReceipt(row, |w.sent|))
  {
    hide Next, Step, Own, Holds;
    AnswerNext(w, k, d, t, SendApproval(row));
  }

  lemma SignApprovalStage(w: World, start: uint64, k: nat, d: Draw, row: Row, ticks: seq<Tick>, i: nat)
    requires At(w, start, k, row, ticks, i, SendApproval(row)) && Affordable(w, k, d, ticks, i)
    requires i + 12 <= |ticks| && row.participant !in w.registry.participants
    ensures k < |w.queue| && ProcessEnds(w, k, row, ticks, i, i + 6, ticks[i + 1].now, Drive(w, k, d, ticks, i))
    decreases |ticks| - i, 0
  {
    hide At, WorldOk, Drive, Affordable, Next, Holds, Balance, R.ChainOk, RowOk, MovedBy, ProcessEnds;
    Known(w, start, k, row, ticks, i, SendApproval(row));
    DriveOnce(w, k, d, ticks, i);
    SignApprovalNext(w, k, d, row, ticks[i]);
    var sent := w.sent + [Approve(w.queue[k].id, row.participant, row.wallet, row.roles, row.expiresAt)];
    Ticked(w, start, k, d, row, ticks, i, SendApproval(row), ApprovalReceipt(row, |w.sent|), sent);
    var w1 := Next(w, k, d, ticks[i]);
    LandedApprovalStage(w1, ticks[i].now, k, d, row, |w.sent|, ticks, i + 1);
    ProcessEndsEarlier(w, w1, k, row, ticks, i, i + 6, ticks[i + 1].now, Drive(w, k, d, ticks, i));
  }

  lemma ApprovalFeesNext(w: World, k: nat, d: Draw, row: Row, t: Tick)
    requires k < |w.queue| && w.queue[k].phase == Running(ApprovalFees(row)) && w.queue[k].id in w.rows
    requires row.wallet == WalletOf(w, k) && Holds(w, row.wallet) + t.moved >= 0
    ensures Next(w, k, d, t) == Waits(Shift(w, row.wallet, t.moved), k, SendApproval(row))
  {
    hide Next, Step, Own, Holds;
    AnswerNext(w, k, d, t, ApprovalFees(row));
  }

  /** All of chain.approve and what follows: the approval lands at the third tick, the funding starts at the eighth. */
  lemma ApprovalStage(w: World, start: uint64, k: nat, d: Draw, row: Row, ticks: seq<Tick>, i: nat)
    requires At(w, start, k, row, ticks, i, ApprovalFees(row)) && Affordable(w, k, d, ticks, i)
    requires i + 13 <= |ticks| && row.participant !in w.registry.participants
    ensures k < |w.queue| && ProcessEnds(w, k, row, ticks, i, i + 7, ticks[i + 2].now, Drive(w, k, d, ticks, i))
    decreases |ticks| - i, 0
  {
    hide At, WorldOk, Drive, Affordable, Next, Holds, Balance, R.ChainOk, RowOk, MovedBy, ProcessEnds;
    Known(w, start, k, row, ticks, i, ApprovalFees(row));
    DriveOnce(w, k, d, ticks, i);
    ApprovalFeesNext(w, k, d, row, ticks[i]);
    Ticked(w, start, k, d, row, ticks, i, ApprovalFees(row), SendApproval(row), w.sent);
    var w1 := Next(w, k, d, ticks[i]);
    SignApprovalStage(w1, ticks[i].now, k, d, row, ticks, i + 1);
    ProcessEndsEarlier(w, w1, k, row, ticks, i, i + 7, ticks[i + 2].now, Drive(w, k, d, ticks, i));
  }

  // The whole process

  /** The row the process will work on: the stored one, or the one it is about to create. */
  function RowFor(w: World, id: nat, d: Draw): Row
    requires id in w.invitations
  {
    if id in w.rows then w.rows[id]
    else
      Row(d.participant, d.operation, w.invitations[id].wallet, w.invitations[id].roles, d.expiresAt,
          READY_FOR_APPROVAL, None, None, None)
  }

  /** When and to what balance its funding lands: the eighth tick, or the fifteenth if it needs an approval. */
  function FundingOf(w: World, row: Row, ticks: seq<Tick>): Landing
    requires |ticks| >= 17
  {
    LandingAt(Holds(w, row.wallet), ticks, 0, FundingStart(w.registry, row, 4) + 3)
  }

  /** What others move the wallet's balance by between the two reads around its funding. */
  function StrayOf(w: World, row: Row, ticks: seq<Tick>): int
    requires |ticks| >= 17
  {
    var j := FundingStart(w.registry, row, 4);
    MovedBy(ticks, j + 1, j + 6)
  }

  ghost predicate Succeeds(w: World, id: nat, d: Draw, ticks: seq<Tick>)
    requires |ticks| >= 17
  {
    && id in w.invitations && w.invitations[id].wallet != 0
    && var row := RowFor(w, id, d);
       row.state == FUNDED || Fundable(w.registry, w.bank, row, ticks[6].now, FundingOf(w, row, ticks))
  }

  /** The money of a process that succeeds. */
  function MoneyOf(w: World, id: nat, d: Draw, ticks: seq<Tick>): Money
    requires |ticks| >= 17
  {
    if id !in w.invitations then Money(None, 0)
    else
      var row := RowFor(w, id, d);
      MoneyFor(w.registry, w.bank, row, FundingOf(w, row, ticks), StrayOf(w, row, ticks))
  }

  /**
   From every reachable combination of database and chain, a process whose turn it is and that nobody
   else disturbs settles within seventeen steps, taken at any nondecreasing times while its wallet spends
   and receives. It succeeds, with the row FUNDED, exactly if the invitation is claimed and the row is
   FUNDED already, or approval and funding are possible at the times they land.
   */
  lemma UndisturbedProcess(w: World, start: uint64, k: nat, d: Draw, ticks: seq<Tick>)
    requires WorldOk(w, start) && Frontier(w.queue, k) && w.queue[k].phase == Waiting
    requires Fresh(w, d.participant, d.operation) && |ticks| >= 17
    requires Chronological(ticks) && start <= ticks[0].now && Affordable(w, k, d, ticks, 0)
    ensures var id := w.queue[k].id;
            Ends(Drive(w, k, d, ticks, 0), k, id, Succeeds(w, id, d, ticks), MoneyOf(w, id, d, ticks))
  {
    hide WorldOk, Fundable, Fresh, Drive, Affordable, Begins, Succeeds, MoneyOf, Ends, Next, Holds, RowFor, Chronological;
    assert k < |w.queue|;
    var id := w.queue[k].id;
    DriveOnce(w, k, d, ticks, 0);
    RowIsClaimed(w, start, id);
    BeginNext(w, k, d, ticks[0]);
    var m := Shift(w, WalletOf(w, k), ticks[0].moved);
    BeginOutcome(m, k, d);
    SameRowFor(w, m, id, d);
    if id !in w.invitations || w.invitations[id].wallet == 0 || RowFor(w, id, d).state == FUNDED {
      DoneStage(w, Next(w, k, d, ticks[0]), k, d, ticks);
    } else {
      WorkStage(w, start, k, d, ticks);
    }
  }

  lemma RowIsClaimed(w: World, now: uint64, id: nat)
    requires WorldOk(w, now)
    ensures id in w.rows ==> id in w.invitations && w.invitations[id] == Invitation(w.rows[id].wallet, w.rows[id].roles)
                             && w.rows[id].wallet != 0
  {
  }

  lemma SameRowFor(w: World, m: World, id: nat, d: Draw)
    requires m.rows == w.rows && m.invitations == w.invitations
    ensures id in w.invitations ==>
      && RowFor(m, id, d) == RowFor(w, id, d)
      && RowFor(w, id, d).wallet == if id in w.rows then w.rows[id].wallet else w.invitations[id].wallet
  {
  }

  lemma BeginNext(w: World, k: nat, d: Draw, t: Tick)
    requires Frontier(w.queue, k) && w.queue[k].phase == Waiting && Fresh(w, d.participant, d.operation)
    requires Holds(w, WalletOf(w, k)) + t.moved >= 0
    ensures Next(w, k, d, t) == Begins(Shift(w, WalletOf(w, k), t.moved), k, d.participant, d.operation, d.expiresAt)
  {
    hide Holds, Begins;
    MoveShifts(w, t.now, WalletOf(w, k), t.moved);
  }

  /** Up to its first await the process rejects, finds the row FUNDED, or asks for the chain's status. */
  lemma BeginOutcome(w: World, k: nat, d: Draw)
    requires Frontier(w.queue, k)
    requires var id := w.queue[k].id;
             id in w.rows ==> id in w.invitations && w.rows[id].wallet != 0
                              && w.invitations[id] == Invitation(w.rows[id].wallet, w.rows[id].roles)
    ensures var (w', id) := (Begins(w, k, d.participant, d.operation, d.expiresAt), w.queue[k].id);
            && w'.registry == w.registry && w'.bank == w.bank && w'.others == w.others && k < |w'.queue| && w'.queue[k].id == id
            && if id !in w.invitations || w.invitations[id].wallet == 0 then w'.queue[k] == Job(id, Settled(false))
               else
                 && id in w'.rows && w'.rows[id] == RowFor(w, id, d)
                 && if RowFor(w, id, d).state == FUNDED then w'.queue[k] == Job(id, Settled(true))
                    else w'.queue[k] == Job(id, Running(Status(RowFor(w, id, d), false, None, None, false)))
                         && Frontier(w'.queue, k)
  {
    var id := w.queue[k].id;
    hide Frontier;
    if id in w.invitations && w.invitations[id].wallet != 0 && RowFor(w, id, d).state != FUNDED {
      StillFirst(w.queue, k, Running(Status(RowFor(w, id, d), false, None, None, false)));
    }
  }

  lemma StillFirst(queue: seq<Job>, k: nat, phase: Progress)
    requires Frontier(queue, k) && phase.Running?
    ensures k < |queue| && Frontier(queue[k := queue[k].(phase := phase)], k)
  {
  }

  /** Nothing to do: not claimed, or FUNDED already. */
  lemma DoneStage(w: World, w1: World, k: nat, d: Draw, ticks: seq<Tick>)
    requires |ticks| >= 17 && k < |w1.queue| && w1.bank == w.bank
    requires var (id, phase) := (w1.queue[k].id, w1.queue[k].phase);
             if id !in w.invitations || w.invitations[id].wallet == 0 then phase == Settled(false)
             else
               && phase == Settled(true) && id in w1.rows && w1.rows[id] == RowFor(w, id, d)
               && RowFor(w, id, d).state == FUNDED
    ensures var id := w1.queue[k].id;
            Ends(Drive(w1, k, d, ticks, 1), k, id, Succeeds(w, id, d, ticks), MoneyOf(w, id, d, ticks))
  {
    hide Fundable, Drive, FundingOf, StrayOf;
    SettledStays(w1, k, d, ticks, 1);
  }

  /** A claimed row that is not FUNDED yet. */
  lemma WorkStage(w: World, start: uint64, k: nat, d: Draw, ticks: seq<Tick>)
    requires WorldOk(w, start) && Frontier(w.queue, k) && w.queue[k].phase == Waiting
    requires Fresh(w, d.participant, d.operation) && |ticks| >= 17
    requires Chronological(ticks) && start <= ticks[0].now && Affordable(w, k, d, ticks, 0)
    requires var id := w.queue[k].id;
             id in w.invitations && w.invitations[id].wallet != 0 && RowFor(w, id, d).state != FUNDED
    ensures var id := w.queue[k].id;
            Ends(Drive(w, k, d, ticks, 0), k, id, Succeeds(w, id, d, ticks), MoneyOf(w, id, d, ticks))
  {
    hide WorldOk, Drive, Affordable, Begins, Ends, Next, Holds, RowFor, Chronological, Fundable, ProcessEnds, MoneyFor, MovedBy;
    hide Fresh, Frontier, Balance;
    Ready(w, start, k, ticks);
    var id, a := w.queue[k].id, WalletOf(w, k);
    DriveOnce(w, k, d, ticks, 0);
    ShiftHolds(w, a, ticks[0].moved);
    RowIsClaimed(w, start, id);
    BeginNext(w, k, d, ticks[0]);
    var m, row := Shift(w, a, ticks[0].moved), RowFor(w, id, d);
    BeginOutcome(m, k, d);
    SameRowFor(w, m, id, d);
    NextKeeps(w, start, k, d, ticks[0]);
    var w1 := Next(w, k, d, ticks[0]);
    SameHoldings(m, w1, a);
    Begun(w1, ticks[0].now, k, row, ticks);
    ReadStage(w1, ticks[0].now, k, d, row, false, 0, ticks, 1);
    ProcessEndsEarlier(w, w1, k, row, ticks, 0, FundingStart(w.registry, row, 4), ticks[6].now, Drive(w, k, d, ticks, 0));
    WholeEnds(w, k, d, row, ticks, Drive(w, k, d, ticks, 0));
  }

  lemma Ready(w: World, start: uint64, k: nat, ticks: seq<Tick>)
    requires WorldOk(w, start) && Frontier(w.queue, k) && |ticks| >= 17 && Chronological(ticks)
    ensures k < |w.queue| && 0 <= Balance(w.others, w.bank.log, WalletOf(w, k)) && ticks[0].now <= ticks[1].now
  {
  }

  lemma Begun(w1: World, now: uint64, k: nat, row: Row, ticks: seq<Tick>)
    requires WorldOk(w1, now) && Frontier(w1.queue, k) && Chronological(ticks) && 2 <= |ticks| && now <= ticks[1].now
    requires w1.queue[k].phase == Running(Status(row, false, None, None, false)) && w1.queue[k].id in w1.rows
    requires w1.rows[w1.queue[k].id] == row && row.state != FUNDED
    ensures At(w1, now, k, row, ticks, 1, Reading(w1.registry, row, false, 0))
  {
    hide WorldOk, Chronological;
  }

  lemma WholeEnds(w: World, k: nat, d: Draw, row: Row, ticks: seq<Tick>, w': World)
    requires |ticks| >= 17 && k < |w.queue| && w.queue[k].id in w.invitations && w.invitations[w.queue[k].id].wallet != 0
    requires row == RowFor(w, w.queue[k].id, d) && row.state != FUNDED
    requires ProcessEnds(w, k, row, ticks, 0, FundingStart(w.registry, row, 4), ticks[6].now, w')
    ensures var id := w.queue[k].id; Ends(w', k, id, Succeeds(w, id, d, ticks), MoneyOf(w, id, d, ticks))
  {
    hide Ends, Fundable, Holds, MovedBy, MoneyFor, LandingAt, RowFor;
  }

  /**
   What a process records as the initial amount is what the distributor paid under exactly these conditions: a
   chain that was funded before had paid nothing then (a retry after a lost receipt records zero), and otherwise
   others moved nothing between the two reads, or only took from a wallet that was paid nothing.
   */
  lemma WhenRecordedAmountIsPaid(w: World, start: uint64, k: nat, d: Draw, ticks: seq<Tick>)
    requires WorldOk(w, start) && Frontier(w.queue, k) && w.queue[k].phase == Waiting
    requires Fresh(w, d.participant, d.operation) && |ticks| >= 17
    requires Chronological(ticks) && start <= ticks[0].now && Affordable(w, k, d, ticks, 0)
    requires Succeeds(w, w.queue[k].id, d, ticks) && RowFor(w, w.queue[k].id, d).state != FUNDED
    ensures var (id, later) := (w.queue[k].id, Drive(w, k, d, ticks, 0));
            && id in later.rows
            && (later.rows[id].amount == Some(D.PaidInitially(later.bank.log, later.rows[id].participant)) <==>
                  var row := RowFor(w, id, d);
                  if R.Funded(w.registry, row.participant) then D.PaidInitially(w.bank.log, row.participant) == 0
                  else
                    var stray := StrayOf(w, row, ticks);
                    stray == 0 || (stray < 0 && FundingOf(w, row, ticks).walletBalance >= D.INITIAL_TARGET_BALANCE))
  {
    hide WorldOk, Fundable, Drive, Chronological, Fresh, Affordable, FundingOf, StrayOf, RowFor, R.Funded;
    UndisturbedProcess(w, start, k, d, ticks);
  }
}
