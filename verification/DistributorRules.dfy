/**
 What CreatorFirstTestnetPolDistributor promises, stated on one log of transfers. The participant
 totals, daily totals and last payment times the contract keeps are read off that log here.
 */
module DistributorRules {
  import opened Common
  import opened FiniteSums

  const ETHER := 1_000_000_000_000_000_000
  const INITIAL_TARGET_BALANCE := ETHER / 50
  const MAX_TARGET_BALANCE := ETHER / 20
  const MAX_PER_DISTRIBUTION := ETHER / 20
  const LIFETIME_CAP_PER_PARTICIPANT := ETHER / 2
  const DAILY_GLOBAL_BUDGET := ETHER
  const TOP_UP_COOLDOWN := 600
  const DAY := 86_400

  /** cooled: paid by topUp, which respects the cooldown; a registration's first payment does not. */
  datatype Transfer = Transfer(participant: Hash, wallet: Address, operation: Hash, amount: nat, at: uint64, cooled: bool)

  datatype Profile = Profile(wallet: Address, registeredAt: uint64, active: bool)

  /** received and withdrawn are history; balance is what the account holds. */
  datatype Book = Book(profiles: map<Hash, Profile>, log: seq<Transfer>, used: set<Hash>, balance: nat, paused: bool,
                       received: nat, withdrawn: nat)

  datatype Error =
    | InvalidAddress | InvalidIdentifier | ParticipantAlreadyRegistered | WalletAlreadyRegistered
    | ParticipantNotActive | WalletMismatch | OperationAlreadyUsed | InvalidTargetBalance | NoTopUpNeeded
    | CooldownActive | LifetimeCapReached | DailyBudgetExceeded | InsufficientDistributorBalance
    | NativeTransferFailed | InvalidWithdrawal | EnforcedPause | ExpectedPause

  // Reading the log

  function Paid(log: seq<Transfer>): nat {
    if log == [] then 0 else Paid(log[..|log| - 1]) + log[|log| - 1].amount
  }

  function PaidTo(log: seq<Transfer>, p: Hash): nat {
    if log == [] then 0
    else PaidTo(log[..|log| - 1], p) + if log[|log| - 1].participant == p then log[|log| - 1].amount else 0
  }

  /** Paid to p when it was registered. */
  function PaidInitially(log: seq<Transfer>, p: Hash): nat {
    if log == [] then 0
    else
      PaidInitially(log[..|log| - 1], p)
        + if log[|log| - 1].participant == p && !log[|log| - 1].cooled then log[|log| - 1].amount else 0
  }

  function PaidToWallet(log: seq<Transfer>, w: Address): nat {
    if log == [] then 0
    else PaidToWallet(log[..|log| - 1], w) + if log[|log| - 1].wallet == w then log[|log| - 1].amount else 0
  }

  function DayOf(at: uint64): nat { at as nat / DAY }

  function PaidOn(log: seq<Transfer>, day: nat): nat {
    if log == [] then 0
    else PaidOn(log[..|log| - 1], day) + if DayOf(log[|log| - 1].at) == day then log[|log| - 1].amount else 0
  }

  /** Paid at times from <= t < to. */
  function PaidBetween(log: seq<Transfer>, from: nat, to: nat): nat {
    if log == [] then 0
    else
      PaidBetween(log[..|log| - 1], from, to)
        + if from <= log[|log| - 1].at as nat < to then log[|log| - 1].amount else 0
  }

  /** When p was last paid; 0 if never. */
  function LastPaid(log: seq<Transfer>, p: Hash): uint64 {
    if log == [] then 0
    else if log[|log| - 1].participant == p then log[|log| - 1].at
    else LastPaid(log[..|log| - 1], p)
  }

  // Operations

  function Min(a: int, b: int): int { if a < b then a else b }

  function Active(b: Book, p: Hash): bool { p in b.profiles && b.profiles[p].active }

  function Cooling(b: Book, now: uint64, p: Hash): bool {
    LastPaid(b.log, p) != 0 && now as int < LastPaid(b.log, p) as int + TOP_UP_COOLDOWN
  }

  function Wanted(b: Book, p: Hash, walletBalance: nat, target: nat): int {
    Min(target - walletBalance, Min(MAX_PER_DISTRIBUTION, LIFETIME_CAP_PER_PARTICIPANT - PaidTo(b.log, p)))
  }

  /** _topUp. accepts says whether the wallet takes the payment. */
  function TopUp(b: Book, now: uint64, p: Hash, wallet: Address, walletBalance: nat, target: nat, operation: Hash,
                 cooled: bool, accepts: bool): Result<Book, Error>
  {
    if operation == 0 then Revert(InvalidIdentifier)
    else if operation in b.used then Revert(OperationAlreadyUsed)
    else if !Active(b, p) then Revert(ParticipantNotActive)
    else if b.profiles[p].wallet != wallet then Revert(WalletMismatch)
    else if target == 0 || target > MAX_TARGET_BALANCE then Revert(InvalidTargetBalance)
    else if walletBalance >= target then Revert(NoTopUpNeeded)
    else if cooled && Cooling(b, now, p) then Revert(CooldownActive)
    else if LIFETIME_CAP_PER_PARTICIPANT <= PaidTo(b.log, p) then Revert(LifetimeCapReached)
    else
      var amount := Wanted(b, p, walletBalance, target);
      if amount > DAILY_GLOBAL_BUDGET - PaidOn(b.log, DayOf(now)) then Revert(DailyBudgetExceeded)
      else if amount > b.balance then Revert(InsufficientDistributorBalance)
      else if !accepts then Revert(NativeTransferFailed)
      else
        Ok(b.(log := b.log + [Transfer(p, wallet, operation, amount, now, cooled)],
              used := b.used + {operation}, balance := b.balance - amount))
  }

  function RegisterAndTopUp(b: Book, now: uint64, p: Hash, wallet: Address, walletBalance: nat, operation: Hash,
                            accepts: bool): Result<Book, Error>
  {
    if b.paused then Revert(EnforcedPause)
    else if p == 0 || operation == 0 then Revert(InvalidIdentifier)
    else if wallet == 0 then Revert(InvalidAddress)
    else if p in b.profiles then Revert(ParticipantAlreadyRegistered)
    else if exists q :: q in b.profiles && b.profiles[q].wallet == wallet then Revert(WalletAlreadyRegistered)
    else
      var b' := b.(profiles := b.profiles[p := Profile(wallet, now, true)]);
      if walletBalance < INITIAL_TARGET_BALANCE then
        TopUp(b', now, p, wallet, walletBalance, INITIAL_TARGET_BALANCE, operation, false, accepts)
      else Ok(b'.(used := b.used + {operation}))
  }

  function SetParticipantActive(b: Book, p: Hash, active: bool): Result<Book, Error> {
    if p !in b.profiles then Revert(ParticipantNotActive)
    else Ok(b.(profiles := b.profiles[p := b.profiles[p].(active := active)]))
  }

  function EmergencyWithdraw(b: Book, recipient: Address, amount: nat, accepts: bool): Result<Book, Error> {
    if !b.paused then Revert(ExpectedPause)
    else if recipient == 0 then Revert(InvalidAddress)
    else if amount == 0 || amount > b.balance then Revert(InvalidWithdrawal)
    else if !accepts then Revert(NativeTransferFailed)
    else Ok(b.(balance := b.balance - amount, withdrawn := b.withdrawn + amount))
  }

  function PreviewTopUp(b: Book, now: uint64, p: Hash, wallet: Address, walletBalance: nat, target: nat): int {
    if !Active(b, p) then 0
    else if b.profiles[p].wallet != wallet || target == 0 || target > MAX_TARGET_BALANCE then 0
    else if walletBalance >= target then 0
    else
      Min(Min(Wanted(b, p, walletBalance, target), DAILY_GLOBAL_BUDGET - PaidOn(b.log, DayOf(now))), b.balance)
  }

  datatype Call =
    | CallRegisterAndTopUp(p: Hash, wallet: Address, walletBalance: nat, operation: Hash, accepts: bool)
    | CallTopUp(p: Hash, wallet: Address, walletBalance: nat, target: nat, operation: Hash, accepts: bool)
    | CallSetActive(p: Hash, active: bool)
    | CallPause(paused: bool)
    | CallWithdraw(recipient: Address, amount: nat, accepts: bool)
    | CallReceive(amount: nat)

  function Apply(b: Book, now: uint64, call: Call): Result<Book, Error> {
    match call
    case CallRegisterAndTopUp(p, wallet, walletBalance, operation, accepts) =>
      RegisterAndTopUp(b, now, p, wallet, walletBalance, operation, accepts)
    case CallTopUp(p, wallet, walletBalance, target, operation, accepts) =>
      if b.paused then Revert(EnforcedPause)
      else TopUp(b, now, p, wallet, walletBalance, target, operation, true, accepts)
    case CallSetActive(p, active) => SetParticipantActive(b, p, active)
    case CallPause(paused) =>
      if b.paused == paused then Revert(if paused then EnforcedPause else ExpectedPause) else Ok(b.(paused := paused))
    case CallWithdraw(recipient, amount, accepts) => EmergencyWithdraw(b, recipient, amount, accepts)
    case CallReceive(amount) => Ok(b.(balance := b.balance + amount, received := b.received + amount))
  }

  function Deployed(value: nat): Book { Book(map[], [], {}, value, false, value, 0) }

  // What every call keeps

  predicate Unpaid(log: seq<Transfer>, p: Hash) {
    forall i :: 0 <= i < |log| ==> log[i].participant != p
  }

  /** A transfer that respects every limit given the transfers before it. */
  predicate Allowed(before: seq<Transfer>, t: Transfer) {
    && 0 < t.amount <= MAX_PER_DISTRIBUTION
    && PaidTo(before, t.participant) + t.amount <= LIFETIME_CAP_PER_PARTICIPANT
    && PaidOn(before, DayOf(t.at)) + t.amount <= DAILY_GLOBAL_BUDGET
    && (t.cooled && LastPaid(before, t.participant) != 0 ==>
          t.at as int >= LastPaid(before, t.participant) as int + TOP_UP_COOLDOWN)
    && (!t.cooled ==> t.amount <= INITIAL_TARGET_BALANCE && Unpaid(before, t.participant))
    && forall i :: 0 <= i < |before| ==> before[i].operation != t.operation && before[i].at <= t.at
  }

  predicate LogOk(log: seq<Transfer>) {
    forall i :: 0 <= i < |log| ==> Allowed(log[..i], log[i])
  }

  ghost predicate ProfilesOk(b: Book) {
    && 0 !in b.profiles
    && (forall p :: p in b.profiles ==> b.profiles[p].wallet != 0)
    && (forall p, q :: p in b.profiles && q in b.profiles && p != q ==> b.profiles[p].wallet != b.profiles[q].wallet)
  }

  predicate PaidKnown(b: Book, t: Transfer, now: uint64) {
    t.participant in b.profiles && t.wallet == b.profiles[t.participant].wallet && t.operation in b.used && t.at <= now
  }

  /** Double entry: whatever came in is on the account, was distributed, or was withdrawn. */
  ghost predicate BookOk(b: Book, now: uint64) {
    && ProfilesOk(b) && LogOk(b.log)
    && (forall i :: 0 <= i < |b.log| ==> PaidKnown(b, b.log[i], now))
    && b.received == Paid(b.log) + b.withdrawn + b.balance
  }

  lemma LogExtends(log: seq<Transfer>, t: Transfer)
    requires LogOk(log) && Allowed(log, t)
    ensures LogOk(log + [t])
  {
    var log' := log + [t];
    assert log'[..|log|] == log;
    hide Allowed;
    forall i | 0 <= i < |log'| ensures Allowed(log'[..i], log'[i]) {
      if i < |log| { assert log'[..i] == log[..i]; }
    }
  }

  /** The guards of _topUp are the limits. */
  lemma TopUpIsAllowed(b: Book, b': Book, now: uint64, p: Hash, wallet: Address, walletBalance: nat, target: nat,
                       operation: Hash, cooled: bool, accepts: bool)
    requires !cooled ==> target == INITIAL_TARGET_BALANCE && Unpaid(b.log, p)
    requires forall i :: 0 <= i < |b.log| ==> PaidKnown(b, b.log[i], now)
    requires TopUp(b, now, p, wallet, walletBalance, target, operation, cooled, accepts) == Ok(b')
    ensures |b'.log| == |b.log| + 1 && Allowed(b.log, b'.log[|b.log|])
  {
  }

  lemma TopUpKeeps(b: Book, b': Book, now: uint64, p: Hash, wallet: Address, walletBalance: nat, target: nat,
                   operation: Hash, cooled: bool, accepts: bool)
    requires !cooled ==> target == INITIAL_TARGET_BALANCE && Unpaid(b.log, p)
    requires BookOk(b, now) && TopUp(b, now, p, wallet, walletBalance, target, operation, cooled, accepts) == Ok(b')
    ensures BookOk(b', now)
  {
    hide LogOk, Allowed;
    TopUpIsAllowed(b, b', now, p, wallet, walletBalance, target, operation, cooled, accepts);
    LogExtends(b.log, b'.log[|b.log|]);
    assert b'.log[..|b.log|] == b.log;
    forall i | 0 <= i < |b'.log| ensures PaidKnown(b', b'.log[i], now) {
      if i < |b.log| { assert PaidKnown(b, b.log[i], now); }
    }
  }

  lemma ProfileChangeKeeps(b: Book, b': Book, now: uint64)
    requires BookOk(b, now) && ProfilesOk(b') && b' == b.(profiles := b'.profiles)
    requires forall p :: p in b.profiles ==> p in b'.profiles && b'.profiles[p].wallet == b.profiles[p].wallet
    ensures BookOk(b', now)
  {
  }

  lemma UnknownIsUnpaid(b: Book, now: uint64, p: Hash)
    requires BookOk(b, now) && p !in b.profiles
    ensures Unpaid(b.log, p)
  {
    hide LogOk;
    forall i | 0 <= i < |b.log| ensures b.log[i].participant != p {
      assert PaidKnown(b, b.log[i], now);
    }
  }

  lemma RegisterKeeps(b: Book, b': Book, now: uint64, p: Hash, wallet: Address, walletBalance: nat, operation: Hash,
                      accepts: bool)
    requires BookOk(b, now) && RegisterAndTopUp(b, now, p, wallet, walletBalance, operation, accepts) == Ok(b')
    ensures BookOk(b', now)
  {
    hide LogOk;
    var enrolled := b.(profiles := b.profiles[p := Profile(wallet, now, true)]);
    ProfileChangeKeeps(b, enrolled, now);
    UnknownIsUnpaid(b, now, p);
    if walletBalance < INITIAL_TARGET_BALANCE {
      hide TopUp, BookOk;
      TopUpKeeps(enrolled, b', now, p, wallet, walletBalance, INITIAL_TARGET_BALANCE, operation, false, accepts);
    } else {
      forall i | 0 <= i < |b.log| ensures PaidKnown(b', b.log[i], now) {
        assert PaidKnown(enrolled, b.log[i], now);
      }
    }
  }

  /** Every accepted call keeps the double entry and every limit. */
  lemma ApplyKeeps(b: Book, b': Book, before: uint64, now: uint64, call: Call)
    requires BookOk(b, before) && before <= now && Apply(b, now, call) == Ok(b')
    ensures BookOk(b', now)
  {
    hide LogOk;
    assert BookOk(b, now) by {
      assert forall i :: 0 <= i < |b.log| ==> PaidKnown(b, b.log[i], before);
    }
    if call.CallRegisterAndTopUp? {
      RegisterKeeps(b, b', now, call.p, call.wallet, call.walletBalance, call.operation, call.accepts);
    } else if call.CallTopUp? {
      TopUpKeeps(b, b', now, call.p, call.wallet, call.walletBalance, call.target, call.operation, true, call.accepts);
    } else if call.CallSetActive? {
      ProfileChangeKeeps(b, b', now);
    } else {
      assert forall i :: 0 <= i < |b.log| ==> PaidKnown(b, b.log[i], now);
    }
  }

  // Limits that follow from the log

  lemma {:induction false} LifetimeCap(log: seq<Transfer>, p: Hash)
    requires LogOk(log)
    ensures PaidTo(log, p) <= LIFETIME_CAP_PER_PARTICIPANT
  {
    if log != [] {
      PrefixOk(log);
      LifetimeCap(log[..|log| - 1], p);
      assert Allowed(log[..|log| - 1], log[|log| - 1]);
    }
  }

  lemma {:induction false} NothingPaid(log: seq<Transfer>, p: Hash)
    requires Unpaid(log, p)
    ensures PaidTo(log, p) == 0 && LastPaid(log, p) == 0 && PaidInitially(log, p) == 0
  {
    if log != [] { NothingPaid(log[..|log| - 1], p); }
  }

  /** Whoever registers a participant, it gets its initial payment at most once, and never more than the target. */
  lemma {:induction false} InitialPaymentOnce(log: seq<Transfer>, p: Hash)
    requires LogOk(log)
    ensures PaidInitially(log, p) <= 20_000_000_000_000_000
  {
    if log != [] {
      PrefixOk(log);
      InitialPaymentOnce(log[..|log| - 1], p);
      var last := log[|log| - 1];
      assert Allowed(log[..|log| - 1], last);
      if last.participant == p && !last.cooled { NothingPaid(log[..|log| - 1], p); }
    }
  }

  lemma {:induction false} DailyCap(log: seq<Transfer>, day: nat)
    requires LogOk(log)
    ensures PaidOn(log, day) <= DAILY_GLOBAL_BUDGET
  {
    if log != [] {
      PrefixOk(log);
      DailyCap(log[..|log| - 1], day);
      assert Allowed(log[..|log| - 1], log[|log| - 1]);
    }
  }

  lemma PrefixesOk(log: seq<Transfer>, n: nat)
    requires LogOk(log) && n <= |log|
    ensures LogOk(log[..n])
  {
    hide Allowed;
    forall i | 0 <= i < n ensures Allowed(log[..n][..i], log[..n][i]) {
      assert log[..n][..i] == log[..i];
    }
  }

  lemma PrefixOk(log: seq<Transfer>)
    requires LogOk(log) && log != []
    ensures LogOk(log[..|log| - 1])
  {
    PrefixesOk(log, |log| - 1);
  }

  lemma {:induction false} WindowSplits(log: seq<Transfer>, from: nat, middle: nat, to: nat)
    requires from <= middle <= to
    ensures PaidBetween(log, from, to) == PaidBetween(log, from, middle) + PaidBetween(log, middle, to)
  {
    if log != [] { WindowSplits(log[..|log| - 1], from, middle, to); }
  }

  lemma {:induction false} DayWindow(log: seq<Transfer>, day: nat)
    ensures PaidBetween(log, day * DAY, (day + 1) * DAY) == PaidOn(log, day)
  {
    if log != [] {
      DayWindow(log[..|log| - 1], day);
      var at := log[|log| - 1].at as nat;
      assert day * DAY <= at < (day + 1) * DAY <==> at / DAY == day;
    }
  }

  lemma {:induction false} WholeDays(log: seq<Transfer>, day: nat, days: nat)
    requires LogOk(log)
    ensures PaidBetween(log, day * DAY, (day + days) * DAY) <= days * DAILY_GLOBAL_BUDGET
    decreases days
  {
    if days == 0 {
      WindowSplits(log, day * DAY, day * DAY, day * DAY);
    } else {
      WholeDays(log, day, days - 1);
      WindowSplits(log, day * DAY, (day + days - 1) * DAY, (day + days) * DAY);
      DayWindow(log, day + days - 1);
      DailyCap(log, day + days - 1);
    }
  }

  /** A window as long as `days` days, wherever it starts, meets at most one more calendar day. */
  lemma AnyWindow(log: seq<Transfer>, from: nat, days: nat)
    requires LogOk(log)
    ensures PaidBetween(log, from, from + days * 86_400) <= (days + 1) * 1_000_000_000_000_000_000
  {
    var day := from / DAY;
    assert day * DAY <= from < (day + 1) * DAY;
    var to, end := from + days * DAY, (day + days + 1) * DAY;
    assert to <= end;
    WholeDays(log, day, days + 1);
    WindowSplits(log, day * DAY, from, end);
    WindowSplits(log, from, to, end);
  }

  /** Between two cooled payments to one participant lie at least ten minutes. */
  lemma {:induction false} CooldownHolds(log: seq<Transfer>, i: nat, j: nat)
    requires LogOk(log) && i < j < |log| && log[i].participant == log[j].participant
    requires log[j].cooled && log[i].at != 0
    ensures log[i].at as int + 600 <= log[j].at as int
  {
    assert Allowed(log[..j], log[j]);
    PrefixesOk(log, j);
    LastPaidIsLatest(log[..j], i);
  }

  lemma {:induction false} LastPaidIsLatest(log: seq<Transfer>, i: nat)
    requires LogOk(log) && i < |log|
    ensures log[i].at <= LastPaid(log, log[i].participant)
  {
    var last := |log| - 1;
    if i < last {
      PrefixOk(log);
      LastPaidIsLatest(log[..last], i);
      assert Allowed(log[..last], log[last]);
    }
  }

  /** An operation id pays at most once. */
  lemma OperationPaysOnce(log: seq<Transfer>, i: nat, j: nat)
    requires LogOk(log) && i < j < |log|
    ensures log[i].operation != log[j].operation
  {
  }

  /** The cap holds per wallet too: nobody collects twice under two participant ids. */
  lemma WalletCap(b: Book, now: uint64, w: Address)
    requires BookOk(b, now)
    ensures PaidToWallet(b.log, w) <= 500_000_000_000_000_000
  {
    if p :| p in b.profiles && b.profiles[p].wallet == w {
      WalletIsParticipant(b, now, p, |b.log|);
      assert b.log[..|b.log|] == b.log;
      LifetimeCap(b.log, p);
    } else {
      NoSuchWallet(b, now, w, |b.log|);
      assert b.log[..|b.log|] == b.log;
    }
  }

  lemma {:induction false} WalletIsParticipant(b: Book, now: uint64, p: Hash, n: nat)
    requires BookOk(b, now) && p in b.profiles && n <= |b.log|
    ensures PaidToWallet(b.log[..n], b.profiles[p].wallet) == PaidTo(b.log[..n], p)
  {
    if n > 0 {
      WalletIsParticipant(b, now, p, n - 1);
      assert b.log[..n][..n - 1] == b.log[..n - 1];
      assert PaidKnown(b, b.log[n - 1], now);
    }
  }

  lemma {:induction false} NoSuchWallet(b: Book, now: uint64, w: Address, n: nat)
    requires BookOk(b, now) && n <= |b.log| && forall p :: p in b.profiles ==> b.profiles[p].wallet != w
    ensures PaidToWallet(b.log[..n], w) == 0
  {
    if n > 0 {
      NoSuchWallet(b, now, w, n - 1);
      assert b.log[..n][..n - 1] == b.log[..n - 1];
      assert PaidKnown(b, b.log[n - 1], now);
    }
  }

  ghost function ToEach(log: seq<Transfer>): Hash -> int { (p: Hash) => PaidTo(log, p) }

  ghost function OnEach(log: seq<Transfer>): nat -> int { (day: nat) => PaidOn(log, day) }

  /** Participant totals and daily totals are two views of the same log. */
  lemma {:induction false} BothTotalsAddUp(log: seq<Transfer>, participants: set<Hash>, days: set<nat>)
    requires forall i :: 0 <= i < |log| ==> log[i].participant in participants && DayOf(log[i].at) in days
    ensures Sum(participants, ToEach(log)) == Paid(log) == Sum(days, OnEach(log))
    decreases |log|
  {
    if log == [] {
      SumScaled(participants, ToEach(log), ToEach(log), 0);
      SumScaled(days, OnEach(log), OnEach(log), 0);
    } else {
      var before, t := log[..|log| - 1], log[|log| - 1];
      BothTotalsAddUp(before, participants, days);
      SumReplace(participants, ToEach(before), ToEach(log), t.participant);
      SumReplace(days, OnEach(before), OnEach(log), DayOf(t.at));
    }
  }

  /** Nothing is withdrawn while running and nothing distributed while paused, so neither can race the other. */
  lemma WithdrawalsNeedPause(b: Book, b': Book, now: uint64, call: Call)
    requires Apply(b, now, call) == Ok(b')
    ensures !b.paused ==> b'.withdrawn == b.withdrawn
    ensures b.paused ==> b'.log == b.log
    ensures b'.withdrawn - b.withdrawn + Paid(b'.log) - Paid(b.log) + b'.balance - b.balance == b'.received - b.received
  {
  }

  // Preview

  /** A top-up that goes through pays exactly what a preview just before it said. */
  lemma TopUpPaysPreview(b: Book, b': Book, now: uint64, p: Hash, wallet: Address, walletBalance: nat, target: nat,
                         operation: Hash, cooled: bool, accepts: bool)
    requires TopUp(b, now, p, wallet, walletBalance, target, operation, cooled, accepts) == Ok(b')
    ensures PreviewTopUp(b, now, p, wallet, walletBalance, target) > 0
    ensures Paid(b'.log) == Paid(b.log) + PreviewTopUp(b, now, p, wallet, walletBalance, target)
    ensures b'.balance == b.balance - PreviewTopUp(b, now, p, wallet, walletBalance, target)
    ensures PaidTo(b'.log, p) == PaidTo(b.log, p) + PreviewTopUp(b, now, p, wallet, walletBalance, target)
  {
  }

  /** A preview never exceeds any cap, and its subtractions never underflow. */
  lemma PreviewWithinCaps(b: Book, now: uint64, p: Hash, wallet: Address, walletBalance: nat, target: nat)
    requires BookOk(b, now)
    ensures var preview := PreviewTopUp(b, now, p, wallet, walletBalance, target);
            && 0 <= preview <= 50_000_000_000_000_000 && preview <= b.balance
            && PaidTo(b.log, p) + preview <= 500_000_000_000_000_000
            && PaidOn(b.log, now as nat / 86_400) + preview <= 1_000_000_000_000_000_000
  {
    LifetimeCap(b.log, p);
    DailyCap(b.log, DayOf(now));
  }

  /**
   A positive preview is not a promise: it also trims to the day's rest and the balance, where a
   top-up reverts, and knows neither pause, cooldown nor operation ids. Exactly these decide.
   */
  lemma WhenTopUpSucceeds(b: Book, now: uint64, p: Hash, wallet: Address, walletBalance: nat, target: nat,
                          operation: Hash, accepts: bool)
    requires BookOk(b, now)
    ensures Apply(b, now, CallTopUp(p, wallet, walletBalance, target, operation, accepts)).Ok? <==>
            && PreviewTopUp(b, now, p, wallet, walletBalance, target) > 0
            && !b.paused && operation != 0 && operation !in b.used && !Cooling(b, now, p) && accepts
            && Wanted(b, p, walletBalance, target) <= DAILY_GLOBAL_BUDGET - PaidOn(b.log, DayOf(now))
            && Wanted(b, p, walletBalance, target) <= b.balance
  {
  }

  /** The log only grows, so what a wallet was paid never falls. */
  lemma LogGrows(b: Book, b': Book, now: uint64, call: Call)
    requires Apply(b, now, call) == Ok(b')
    ensures forall w :: PaidToWallet(b.log, w) <= PaidToWallet(b'.log, w)
  {
    if b'.log != b.log { assert b'.log[..|b.log|] == b.log; }
  }

  /** Registered profiles stay, with the same wallet. */
  lemma ProfilesStay(b: Book, b': Book, now: uint64, call: Call)
    requires Apply(b, now, call) == Ok(b')
    ensures forall p :: p in b.profiles ==> p in b'.profiles && b'.profiles[p].wallet == b.profiles[p].wallet
  {
  }

  // Runs

  datatype Event = Event(now: uint64, call: Call)

  function Step(b: Book, e: Event): Book {
    match Apply(b, e.now, e.call)
    case Ok(b') => b'
    case Revert(_) => b
  }

  function Run(b: Book, events: seq<Event>): Book {
    if events == [] then b else Step(Run(b, events[..|events| - 1]), events[|events| - 1])
  }

  predicate Chronological(events: seq<Event>) {
    forall i :: 0 < i < |events| ==> events[i - 1].now <= events[i].now
  }

  lemma {:induction false} RunKeeps(value: nat, events: seq<Event>)
    requires Chronological(events)
    ensures BookOk(Run(Deployed(value), events), if events == [] then 0 else events[|events| - 1].now)
    decreases |events|
  {
    hide BookOk, Apply;
    if events == [] {
      DeployedOk(value);
    } else {
      var before, e := events[..|events| - 1], events[|events| - 1];
      RunKeeps(value, before);
      var b, was := Run(Deployed(value), before), if before == [] then 0 else before[|before| - 1].now;
      if Apply(b, e.now, e.call).Ok? {
        ApplyKeeps(b, Step(b, e), was, e.now, e.call);
      } else {
        LaterClock(b, was, e.now);
      }
    }
  }

  lemma DeployedOk(value: nat)
    ensures BookOk(Deployed(value), 0)
  {
  }

  lemma LaterClock(b: Book, before: uint64, now: uint64)
    requires BookOk(b, before) && before <= now
    ensures BookOk(b, now)
  {
  }

  /** In every run: at most 0.02 ether initially, 0.5 ether per participant and per wallet, 1 ether a day, 2 ether in any 24 hours. */
  lemma EveryRunIsBounded(value: nat, events: seq<Event>, p: Hash, w: Address, day: nat, from: nat)
    requires Chronological(events)
    ensures var b := Run(Deployed(value), events);
            && b.balance == b.received - Paid(b.log) - b.withdrawn
            && PaidInitially(b.log, p) <= 20_000_000_000_000_000
            && PaidTo(b.log, p) <= 500_000_000_000_000_000 && PaidToWallet(b.log, w) <= 500_000_000_000_000_000
            && PaidBetween(b.log, day * 86_400, (day + 1) * 86_400) <= 1_000_000_000_000_000_000
            && PaidBetween(b.log, from, from + 86_400) <= 2_000_000_000_000_000_000
  {
    var b := Run(Deployed(value), events);
    RunKeeps(value, events);
    hide Run;
    InitialPaymentOnce(b.log, p);
    LifetimeCap(b.log, p);
    WalletCap(b, if events == [] then 0 else events[|events| - 1].now, w);
    DayWindow(b.log, day);
    DailyCap(b.log, day);
    AnyWindow(b.log, from, 1);
  }

  // A positive preview is no promise

  const REGISTRATION := Event(1, CallRegisterAndTopUp(7, 70, 0, 1, true))

  /** What the account holds is trimmed to by the preview, but required in full by a top-up. */
  const ENDOWMENT := ETHER / 50 + ETHER / 100

  lemma AfterRegistration()
    ensures Run(Deployed(ENDOWMENT), [REGISTRATION])
            == Book(map[7 := Profile(70, 1, true)], [Transfer(7, 70, 1, ETHER / 50, 1, false)], {1}, ETHER / 100, false,
                    ENDOWMENT, 0)
  {
    var b := Deployed(ENDOWMENT);
    assert Run(b, []) == b && [REGISTRATION][..0] == [];
    assert Step(b, REGISTRATION) == Run(b, [REGISTRATION]);
    assert b.log + [Transfer(7, 70, 1, ETHER / 50, 1, false)] == [Transfer(7, 70, 1, ETHER / 50, 1, false)];
  }

  /** One reached book, two positive previews: a second later the cooldown, an hour later the balance rejects. */
  lemma PositivePreviewIsNoPromise()
    ensures var b := Run(Deployed(ENDOWMENT), [REGISTRATION]);
            && PreviewTopUp(b, 2, 7, 70, 0, MAX_TARGET_BALANCE) == ETHER / 100
            && Apply(b, 2, CallTopUp(7, 70, 0, MAX_TARGET_BALANCE, 2, true)) == Revert(CooldownActive)
            && PreviewTopUp(b, 3601, 7, 70, 0, MAX_TARGET_BALANCE) == ETHER / 100
            && Apply(b, 3601, CallTopUp(7, 70, 0, MAX_TARGET_BALANCE, 2, true)) == Revert(InsufficientDistributorBalance)
  {
    AfterRegistration();
    var b := Run(Deployed(ENDOWMENT), [REGISTRATION]);
    assert b.log[..0] == [];
    assert PaidTo(b.log, 7) == ETHER / 50 && LastPaid(b.log, 7) == 1 && PaidOn(b.log, 0) == ETHER / 50;
  }
}
