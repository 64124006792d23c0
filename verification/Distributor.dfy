/**
 The distributor as it runs: totals per participant and per day, updated in place with every
 payment. Each method is proved to do what the rules over the transfer log say.
 */
module Distributor {
  import opened Common
  import opened DistributorRules

  datatype Failure = Success | Failed(error: Error)

  ghost predicate Follows(rule: Result<Book, Error>, failure: Failure, before: Book, after: Book) {
    match rule
    case Ok(b) => failure == Success && after == b
    case Revert(e) => failure == Failed(e) && after == before
  }

  type Totals = map<Hash, uint128>

  /** Stored totals equal what the log says. */
  ghost predicate TotalsOk(profiles: map<Hash, Profile>, log: seq<Transfer>, cumulative: Totals, last: map<Hash, uint64>,
                           daily: map<nat, nat>) {
    && cumulative.Keys == profiles.Keys && last.Keys == profiles.Keys
    && (forall p :: p in profiles ==> cumulative[p] as nat == PaidTo(log, p) && last[p] == LastPaid(log, p))
    && forall day :: Read(daily, day, 0) == PaidOn(log, day)
  }

  /** The wallet index is the inverse of the profile table. */
  ghost predicate IndexOk(profiles: map<Hash, Profile>, ids: map<Address, Hash>) {
    && (forall p :: p in profiles ==> profiles[p].wallet in ids && ids[profiles[p].wallet] == p)
    && (forall w :: w in ids ==> ids[w] in profiles && profiles[ids[w]].wallet == w)
  }

  lemma WalletKnown(b: Book, ids: map<Address, Hash>, w: Address)
    requires ProfilesOk(b) && IndexOk(b.profiles, ids)
    ensures Read(ids, w, 0) != 0 <==> exists p :: p in b.profiles && b.profiles[p].wallet == w
  {
  }

  lemma TotalsAfterRegistration(b: Book, now: uint64, p: Hash, profile: Profile, cumulative: Totals,
                                last: map<Hash, uint64>, daily: map<nat, nat>)
    requires BookOk(b, now) && p !in b.profiles && TotalsOk(b.profiles, b.log, cumulative, last, daily)
    ensures TotalsOk(b.profiles[p := profile], b.log, cumulative[p := 0], last[p := 0], daily)
  {
    UnknownIsUnpaid(b, now, p);
    NothingPaid(b.log, p);
  }

  lemma BooksAfterRegistration(b: Book, now: uint64, p: Hash, profile: Profile, ids: map<Address, Hash>)
    requires BookOk(b, now) && IndexOk(b.profiles, ids) && p != 0 && profile.wallet != 0 && p !in b.profiles
    requires forall q :: q in b.profiles ==> b.profiles[q].wallet != profile.wallet
    ensures BookOk(b.(profiles := b.profiles[p := profile]), now)
    ensures IndexOk(b.profiles[p := profile], ids[profile.wallet := p])
  {
    hide LogOk;
    ProfileChangeKeeps(b, b.(profiles := b.profiles[p := profile]), now);
  }

  lemma TotalsAfterPayment(profiles: map<Hash, Profile>, log: seq<Transfer>, t: Transfer, cumulative: Totals,
                           last: map<Hash, uint64>, daily: map<nat, nat>, total: uint128)
    requires TotalsOk(profiles, log, cumulative, last, daily) && t.participant in profiles
    requires total as nat == PaidTo(log, t.participant) + t.amount
    ensures TotalsOk(profiles, log + [t], cumulative[t.participant := total], last[t.participant := t.at],
                     daily[DayOf(t.at) := PaidOn(log, DayOf(t.at)) + t.amount])
  {
    var log' := log + [t];
    assert log'[..|log|] == log;
    forall p | p in profiles
      ensures cumulative[t.participant := total][p] as nat == PaidTo(log', p)
      ensures last[t.participant := t.at][p] == LastPaid(log', p)
    {
    }
    forall day ensures Read(daily[DayOf(t.at) := PaidOn(log, DayOf(t.at)) + t.amount], day, 0) == PaidOn(log', day) {
    }
  }

  lemma TotalsAfterSwitch(profiles: map<Hash, Profile>, log: seq<Transfer>, cumulative: Totals, last: map<Hash, uint64>,
                          daily: map<nat, nat>, ids: map<Address, Hash>, p: Hash, active: bool)
    requires p in profiles && TotalsOk(profiles, log, cumulative, last, daily) && IndexOk(profiles, ids)
    ensures TotalsOk(profiles[p := profiles[p].(active := active)], log, cumulative, last, daily)
    ensures IndexOk(profiles[p := profiles[p].(active := active)], ids)
  {
  }

  lemma CapsKnown(b: Book, now: uint64, p: Hash)
    requires BookOk(b, now)
    ensures PaidTo(b.log, p) <= LIFETIME_CAP_PER_PARTICIPANT && PaidOn(b.log, DayOf(now)) <= DAILY_GLOBAL_BUDGET
  {
    hide Allowed;
    LifetimeCap(b.log, p);
    DailyCap(b.log, DayOf(now));
  }

  /** A participant's new total is within the cap, far inside uint128. */
  lemma PaymentFits(b: Book, now: uint64, before: seq<Transfer>, t: Transfer)
    requires BookOk(b, now) && b.log == before + [t]
    ensures PaidTo(before, t.participant) + t.amount <= LIFETIME_CAP_PER_PARTICIPANT
  {
  }

  class Distributor {
    var participants: map<Hash, Profile>
    var cumulativeDistributed: Totals
    var lastDistributedAt: map<Hash, uint64>
    var participantIdByWallet: map<Address, Hash>
    var usedOperationIds: set<Hash>
    var distributedByDay: map<nat, nat>
    var balance: nat
    var paused: bool
    ghost var log: seq<Transfer>
    ghost var received: nat
    ghost var withdrawn: nat

    ghost function State(): Book
      reads this
    {
      Book(participants, log, usedOperationIds, balance, paused, received, withdrawn)
    }

    /** Holds from the latest call on. */
    ghost predicate Valid(now: uint64)
      reads this
    {
      && BookOk(State(), now)
      && TotalsOk(participants, log, cumulativeDistributed, lastDistributedAt, distributedByDay)
      && IndexOk(participants, participantIdByWallet)
    }

    constructor (value: nat)
      ensures Valid(0) && State() == Deployed(value)
    {
      participants, cumulativeDistributed, lastDistributedAt, participantIdByWallet := map[], map[], map[], map[];
      usedOperationIds, distributedByDay, balance, paused := {}, map[], value, false;
      log, received, withdrawn := [], value, 0;
    }

    lemma LaterClock(before: uint64, now: uint64)
      requires Valid(before) && before <= now
      ensures Valid(now)
    {
      hide BookOk, TotalsOk, IndexOk;
      DistributorRules.LaterClock(State(), before, now);
    }

    method RegisterAndTopUp(now: uint64, p: Hash, wallet: Address, walletBalance: nat, operation: Hash, accepts: bool)
      returns (failure: Failure, amount: nat)
      requires Valid(now)
      modifies this
      ensures Valid(now)
      ensures Follows(Apply(old(State()), now, CallRegisterAndTopUp(p, wallet, walletBalance, operation, accepts)),
                      failure, old(State()), State())
      ensures balance == old(balance) - amount
    {
      hide LogOk, TotalsOk, IndexOk, DistributorRules.TopUp;
      amount := 0;
      if paused { return Failed(EnforcedPause), 0; }
      if p == 0 || operation == 0 { return Failed(InvalidIdentifier), 0; }
      if wallet == 0 { return Failed(InvalidAddress), 0; }
      if p in participants { return Failed(ParticipantAlreadyRegistered), 0; }
      WalletKnown(State(), participantIdByWallet, wallet);
      if Read(participantIdByWallet, wallet, 0) != 0 { return Failed(WalletAlreadyRegistered), 0; }

      ghost var before := State();
      UnknownIsUnpaid(before, now, p);
      var participants0, cumulative0, last0, ids0 :=
        participants, cumulativeDistributed, lastDistributedAt, participantIdByWallet;
      Enrol(now, p, wallet);
      if walletBalance < INITIAL_TARGET_BALANCE {
        failure, amount := PayUp(now, p, wallet, walletBalance, INITIAL_TARGET_BALANCE, operation, false, accepts);
        if failure != Success {
          participants, cumulativeDistributed, lastDistributedAt, participantIdByWallet :=
            participants0, cumulative0, last0, ids0;
          assert State() == before;
        }
      } else {
        MarkUsed(now, operation);
        failure := Success;
      }
    }

    method Enrol(now: uint64, p: Hash, wallet: Address)
      requires Valid(now) && p != 0 && wallet != 0 && p !in participants
      requires !exists q :: q in participants && participants[q].wallet == wallet
      modifies this`participants, this`cumulativeDistributed, this`lastDistributedAt, this`participantIdByWallet
      ensures Valid(now)
      ensures State() == old(State()).(profiles := old(participants)[p := Profile(wallet, now, true)])
    {
      hide BookOk, TotalsOk, IndexOk;
      TotalsAfterRegistration(State(), now, p, Profile(wallet, now, true), cumulativeDistributed, lastDistributedAt,
                              distributedByDay);
      BooksAfterRegistration(State(), now, p, Profile(wallet, now, true), participantIdByWallet);
      participants := participants[p := Profile(wallet, now, true)];
      cumulativeDistributed, lastDistributedAt := cumulativeDistributed[p := 0], lastDistributedAt[p := 0];
      participantIdByWallet := participantIdByWallet[wallet := p];
    }

    method MarkUsed(now: uint64, operation: Hash)
      requires Valid(now)
      modifies this`usedOperationIds
      ensures Valid(now) && State() == old(State()).(used := old(usedOperationIds) + {operation})
    {
      hide LogOk, TotalsOk, IndexOk;
      usedOperationIds := usedOperationIds + {operation};
      forall i | 0 <= i < |log| ensures PaidKnown(State(), log[i], now) {
        assert PaidKnown(old(State()), log[i], now);
      }
    }

    method TopUp(now: uint64, p: Hash, wallet: Address, walletBalance: nat, target: nat, operation: Hash, accepts: bool)
      returns (failure: Failure, amount: nat)
      requires Valid(now)
      modifies this`usedOperationIds, this`cumulativeDistributed, this`lastDistributedAt, this`distributedByDay
      modifies this`balance, this`log
      ensures Valid(now)
      ensures Follows(Apply(old(State()), now, CallTopUp(p, wallet, walletBalance, target, operation, accepts)),
                      failure, old(State()), State())
      ensures failure == Success ==> amount == DistributorRules.PreviewTopUp(old(State()), now, p, wallet, walletBalance, target)
      ensures balance == old(balance) - amount
    {
      hide BookOk, TotalsOk, IndexOk, DistributorRules.TopUp, DistributorRules.PreviewTopUp;
      if paused { return Failed(EnforcedPause), 0; }
      failure, amount := PayUp(now, p, wallet, walletBalance, target, operation, true, accepts);
      if failure == Success {
        TopUpPaysPreview(old(State()), State(), now, p, wallet, walletBalance, target, operation, true, accepts);
      }
    }

    /** _topUp: no cap subtraction underflows and nothing is truncated to uint128. */
    method PayUp(now: uint64, p: Hash, wallet: Address, walletBalance: nat, target: nat, operation: Hash, cooled: bool,
                 accepts: bool) returns (failure: Failure, amount: nat)
      requires Valid(now) && (!cooled ==> target == INITIAL_TARGET_BALANCE && Unpaid(log, p))
      modifies this`usedOperationIds, this`cumulativeDistributed, this`lastDistributedAt, this`distributedByDay
      modifies this`balance, this`log
      ensures Valid(now)
      ensures Follows(DistributorRules.TopUp(old(State()), now, p, wallet, walletBalance, target, operation, cooled, accepts),
                      failure, old(State()), State())
      ensures balance == old(balance) - amount
      ensures failure != Success ==>
        cumulativeDistributed == old(cumulativeDistributed) && lastDistributedAt == old(lastDistributedAt)
        && distributedByDay == old(distributedByDay)
    {
      hide BookOk, TotalsOk, IndexOk;
      amount := 0;
      if operation == 0 { return Failed(InvalidIdentifier), 0; }
      if operation in usedOperationIds { return Failed(OperationAlreadyUsed), 0; }
      if p !in participants || !participants[p].active { return Failed(ParticipantNotActive), 0; }
      if participants[p].wallet != wallet { return Failed(WalletMismatch), 0; }
      if target == 0 || target > MAX_TARGET_BALANCE { return Failed(InvalidTargetBalance), 0; }
      if walletBalance >= target { return Failed(NoTopUpNeeded), 0; }
      var day := now as nat / DAY;
      TotalsKnown(participants, log, cumulativeDistributed, lastDistributedAt, distributedByDay, p, day);
      if cooled && lastDistributedAt[p] != 0 && (now as nat) < lastDistributedAt[p] as nat + TOP_UP_COOLDOWN {
        return Failed(CooldownActive), 0;
      }
      CapsKnown(State(), now, p);
      var remainingLifetime: nat := LIFETIME_CAP_PER_PARTICIPANT - cumulativeDistributed[p] as nat;
      if remainingLifetime == 0 { return Failed(LifetimeCapReached), 0; }
      var wanted: nat := Min(target - walletBalance, Min(MAX_PER_DISTRIBUTION, remainingLifetime));
      var dailyDistributed := Read(distributedByDay, day, 0);
      var remainingDaily: nat := DAILY_GLOBAL_BUDGET - dailyDistributed;
      if wanted > remainingDaily { return Failed(DailyBudgetExceeded), 0; }
      if wanted > balance { return Failed(InsufficientDistributorBalance), 0; }
      if !accepts { return Failed(NativeTransferFailed), 0; }

      amount := wanted;
      Record(now, Transfer(p, wallet, operation, amount, now, cooled), walletBalance, target);
      failure := Success;
    }

    /** The book after a payment. */
    ghost function WithPayment(t: Transfer): Book
      requires t.amount <= balance
      reads this
    {
      State().(log := log + [t], used := usedOperationIds + {t.operation}, balance := balance - t.amount)
    }

    method Record(now: uint64, t: Transfer, walletBalance: nat, target: nat)
      requires Valid(now) && t.amount <= balance && t.participant in participants && t.at == now
      requires !t.cooled ==> target == INITIAL_TARGET_BALANCE && Unpaid(log, t.participant)
      requires DistributorRules.TopUp(State(), now, t.participant, t.wallet, walletBalance, target, t.operation, t.cooled,
                                      true) == Ok(WithPayment(t))
      modifies this`usedOperationIds, this`cumulativeDistributed, this`lastDistributedAt, this`distributedByDay
      modifies this`balance, this`log
      ensures Valid(now) && State() == old(WithPayment(t))
    {
      hide BookOk, TotalsOk, IndexOk, DistributorRules.TopUp;
      var p, day := t.participant, now as nat / DAY;
      TopUpKeeps(State(), WithPayment(t), now, p, t.wallet, walletBalance, target, t.operation, t.cooled, true);
      TotalsKnown(participants, log, cumulativeDistributed, lastDistributedAt, distributedByDay, p, day);
      PaymentFits(WithPayment(t), now, log, t);
      ghost var total := cumulativeDistributed[p] + t.amount as uint128;
      TotalsAfterPayment(participants, log, t, cumulativeDistributed, lastDistributedAt, distributedByDay, total);
      usedOperationIds := usedOperationIds + {t.operation};
      cumulativeDistributed := cumulativeDistributed[p := cumulativeDistributed[p] + t.amount as uint128];
      lastDistributedAt := lastDistributedAt[p := now];
      distributedByDay := distributedByDay[day := Read(distributedByDay, day, 0) + t.amount];
      balance := balance - t.amount;
      log := log + [t];
    }

    method SetParticipantActive(now: uint64, p: Hash, active: bool) returns (failure: Failure)
      requires Valid(now)
      modifies this`participants
      ensures Valid(now)
      ensures Follows(Apply(old(State()), now, CallSetActive(p, active)), failure, old(State()), State())
    {
      hide LogOk, TotalsOk, IndexOk;
      if p !in participants { return Failed(ParticipantNotActive); }
      TotalsAfterSwitch(participants, log, cumulativeDistributed, lastDistributedAt, distributedByDay,
                        participantIdByWallet, p, active);
      participants := participants[p := participants[p].(active := active)];
      failure := Success;
      ProfileChangeKeeps(old(State()), State(), now);
    }

    method PreviewTopUp(now: uint64, p: Hash, wallet: Address, walletBalance: nat, target: nat) returns (amount: nat)
      requires Valid(now)
      ensures amount == DistributorRules.PreviewTopUp(State(), now, p, wallet, walletBalance, target)
    {
      hide LogOk, IndexOk;
      if p !in participants || !participants[p].active { return 0; }
      if participants[p].wallet != wallet || target == 0 || target > MAX_TARGET_BALANCE { return 0; }
      if walletBalance >= target { return 0; }
      CapsKnown(State(), now, p);
      var remainingLifetime: nat := LIFETIME_CAP_PER_PARTICIPANT - cumulativeDistributed[p] as nat;
      amount := Min(target - walletBalance, Min(MAX_PER_DISTRIBUTION, remainingLifetime));
      var todayRemaining: nat := DAILY_GLOBAL_BUDGET - Read(distributedByDay, now as nat / DAY, 0);
      amount := Min(amount, todayRemaining);
      amount := Min(amount, balance);
    }

    method SetPaused(now: uint64, pause: bool) returns (failure: Failure)
      requires Valid(now)
      modifies this`paused
      ensures Valid(now)
      ensures Follows(Apply(old(State()), now, CallPause(pause)), failure, old(State()), State())
    {
      hide LogOk, TotalsOk, IndexOk;
      if paused == pause { return Failed(if pause then EnforcedPause else ExpectedPause); }
      paused := pause;
      failure := Success;
      ApplyKeeps(old(State()), State(), now, now, CallPause(pause));
    }

    method EmergencyWithdraw(now: uint64, recipient: Address, amount: nat, accepts: bool) returns (failure: Failure)
      requires Valid(now)
      modifies this`balance, this`withdrawn
      ensures Valid(now)
      ensures Follows(Apply(old(State()), now, CallWithdraw(recipient, amount, accepts)), failure, old(State()), State())
    {
      hide LogOk, TotalsOk, IndexOk;
      if !paused { return Failed(ExpectedPause); }
      if recipient == 0 { return Failed(InvalidAddress); }
      if amount == 0 || amount > balance { return Failed(InvalidWithdrawal); }
      if !accepts { return Failed(NativeTransferFailed); }
      balance := balance - amount;
      withdrawn := withdrawn + amount;
      failure := Success;
      ApplyKeeps(old(State()), State(), now, now, CallWithdraw(recipient, amount, accepts));
    }

    method Receive(now: uint64, amount: nat)
      requires Valid(now)
      modifies this`balance, this`received
      ensures Valid(now)
      ensures Ok(State()) == Apply(old(State()), now, CallReceive(amount))
    {
      hide LogOk, TotalsOk, IndexOk;
      balance := balance + amount;
      received := received + amount;
      ApplyKeeps(old(State()), State(), now, now, CallReceive(amount));
    }
  }

  lemma TotalsKnown(profiles: map<Hash, Profile>, log: seq<Transfer>, cumulative: Totals, last: map<Hash, uint64>,
                    daily: map<nat, nat>, p: Hash, day: nat)
    requires TotalsOk(profiles, log, cumulative, last, daily) && p in profiles
    ensures p in cumulative && p in last
    ensures cumulative[p] as nat == PaidTo(log, p) && last[p] == LastPaid(log, p) && Read(daily, day, 0) == PaidOn(log, day)
  {
  }
}
