/**
 Exactly when distributor and registry accept each call and exactly what the call then changes, stated in
 the contracts' own fields and with every limit written out in the currency's smallest unit.
 */
module FundingEffects {
  import opened Common
  import opened DistributorRules
  import R = RegistryRules

  /** The least of three amounts. */
  function Least(a: int, b: int, c: int): (least: int)
    ensures least <= a && least <= b && least <= c && (least == a || least == b || least == c)
  {
    if a <= b && a <= c then a else if b <= c then b else c
  }

  // The distributor

  /** Registered with that wallet and asking for a target up to 0.05 ether that the wallet does not hold yet. */
  predicate Eligible(b: Book, p: Hash, wallet: Address, walletBalance: nat, target: nat) {
    && p in b.profiles && b.profiles[p].active && b.profiles[p].wallet == wallet
    && 0 < target <= 50_000_000_000_000_000 && walletBalance < target
  }

  /** What a top-up may add: not beyond the target, at most 0.05 ether at once and 0.5 ether in a lifetime. */
  predicate MayAdd(b: Book, p: Hash, walletBalance: nat, target: nat, amount: int) {
    && walletBalance + amount <= target && amount <= 50_000_000_000_000_000
    && PaidTo(b.log, p) + amount <= 500_000_000_000_000_000
  }

  /** The preview is the largest amount that fits every limit, the day's ether and the balance; nothing if not eligible. */
  lemma PreviewIsLargest(b: Book, now: uint64, p: Hash, wallet: Address, walletBalance: nat, target: nat, amount: int)
    ensures var preview := PreviewTopUp(b, now, p, wallet, walletBalance, target);
            if Eligible(b, p, wallet, walletBalance, target) then
              amount <= preview <==>
                && MayAdd(b, p, walletBalance, target, amount)
                && PaidOn(b.log, now as nat / 86_400) + amount <= 1_000_000_000_000_000_000 && amount <= b.balance
            else preview == 0
  {
  }

  /**
   A top-up goes through exactly if the participant is eligible, has waited ten minutes and is below the lifetime cap,
   and if the whole amount due fits the day's rest and the balance. Then it pays that amount, to that wallet, once.
   */
  lemma WhenToppedUp(b: Book, now: uint64, p: Hash, wallet: Address, walletBalance: nat, target: nat, operation: Hash, accepts: bool)
    requires BookOk(b, now)
    ensures var r := Apply(b, now, CallTopUp(p, wallet, walletBalance, target, operation, accepts));
            var due := Least(target - walletBalance, 50_000_000_000_000_000, 500_000_000_000_000_000 - PaidTo(b.log, p));
            && (r.Ok? <==>
                  && !b.paused && operation != 0 && operation !in b.used && accepts
                  && Eligible(b, p, wallet, walletBalance, target) && due > 0
                  && (LastPaid(b.log, p) == 0 || LastPaid(b.log, p) as int + 600 <= now as int)
                  && PaidOn(b.log, now as nat / 86_400) + due <= 1_000_000_000_000_000_000 && due <= b.balance)
            && (r.Ok? ==>
                  r.value == b.(log := b.log + [Transfer(p, wallet, operation, due, now, true)],
                                used := b.used + {operation}, balance := b.balance - due))
  {
    hide BookOk;
  }

  /** A registration pays what is missing to 0.02 ether, or undoes itself. */
  lemma WhenRegistered(b: Book, now: uint64, p: Hash, wallet: Address, walletBalance: nat, operation: Hash, accepts: bool)
    requires BookOk(b, now)
    ensures var r := Apply(b, now, CallRegisterAndTopUp(p, wallet, walletBalance, operation, accepts));
            var due := 20_000_000_000_000_000 - walletBalance;
            var enrolled := b.(profiles := b.profiles[p := Profile(wallet, now, true)], used := b.used + {operation});
            && (r.Ok? <==>
                  && !b.paused && p != 0 && operation != 0 && wallet != 0 && p !in b.profiles
                  && (forall q :: q in b.profiles ==> b.profiles[q].wallet != wallet)
                  && (due > 0 ==>
                        && operation !in b.used && accepts && due <= b.balance
                        && PaidOn(b.log, now as nat / 86_400) + due <= 1_000_000_000_000_000_000))
            && (r.Ok? && due <= 0 ==> r.value == enrolled)
            && (r.Ok? && due > 0 ==>
                  r.value == enrolled.(log := b.log + [Transfer(p, wallet, operation, due, now, false)], balance := b.balance - due))
  {
    if p !in b.profiles {
      UnknownIsUnpaid(b, now, p);
      NothingPaid(b.log, p);
    }
    hide BookOk;
  }

  /** Only a paused contract pays out to its operators, and only what it holds. */
  lemma WhenWithdrawn(b: Book, now: uint64, recipient: Address, amount: nat, accepts: bool)
    ensures var r := Apply(b, now, CallWithdraw(recipient, amount, accepts));
            && (r.Ok? <==> b.paused && recipient != 0 && 0 < amount <= b.balance && accepts)
            && (r.Ok? ==> r.value == b.(balance := b.balance - amount, withdrawn := b.withdrawn + amount))
    ensures Apply(b, now, CallReceive(amount)) == Ok(b.(balance := b.balance + amount, received := b.received + amount))
  {
  }

  /** The switches of both contracts. */
  lemma WhenSwitched(b: Book, r: R.Registry, now: uint64, p: Hash, on: bool)
    ensures var (d, pause) := (Apply(b, now, CallSetActive(p, on)), Apply(b, now, CallPause(on)));
            && (d.Ok? <==> p in b.profiles) && (pause.Ok? <==> b.paused != on)
            && (d.Ok? ==> d.value == b.(profiles := b.profiles[p := b.profiles[p].(active := on)]))
            && (pause.Ok? ==> pause.value == b.(paused := on))
    ensures var (v, pause) := (R.Apply(r, b, now, R.CallSetActive(p, on)), R.Apply(r, b, now, R.CallPause(on)));
            && (v.Ok? <==> p in r.participants) && (pause.Ok? <==> r.paused != on)
            && (v.Ok? ==> v.value == (r.(participants := r.participants[p := r.participants[p].(active := on)]), b))
            && (pause.Ok? ==> pause.value == (r.(paused := on), b))
  {
  }

  // The registry

  /** Roles are a nonempty choice of user (1) and creator (2). */
  lemma WhenClaimIsApproved(r: R.Registry, b: Book, now: uint64, p: Hash, wallet: Address, roles: bv8, expiresAt: uint64)
    ensures var result := R.Apply(r, b, now, R.CallApprove(p, wallet, roles, expiresAt));
            && (result.Ok? <==>
                  && !r.paused && p != 0 && wallet != 0 && (roles == 1 || roles == 2 || roles == 3) && now < expiresAt
                  && p !in r.participants && wallet !in r.ids)
            && (result.Ok? ==>
                  && result.value.1 == b
                  && result.value.0 == r.(participants := r.participants[p := R.Participant(wallet, roles, 0, now, expiresAt, true, false)],
                                          ids := r.ids[wallet := p], approvals := r.approvals + [R.Entry(p, wallet)]))
  {
    assert roles != 0 && roles & !R.ALL_ROLES == 0 <==> roles == 1 || roles == 2 || roles == 3;
  }

  /** Funding needs a live approval and pays that participant's wallet through the distributor, once. */
  lemma WhenInitiallyFunded(r: R.Registry, b: Book, now: uint64, p: Hash, operation: Hash, walletBalance: nat, accepts: bool)
    ensures var result := R.Apply(r, b, now, R.CallFund(p, operation, walletBalance, accepts));
            && (result.Ok? <==>
                  && !r.paused && operation != 0 && p in r.participants
                  && var v := r.participants[p];
                  && v.active && !v.initialFundingCompleted && (v.registeredRoles != 0 || now <= v.approvalExpiresAt)
                  && Apply(b, now, CallRegisterAndTopUp(p, v.wallet, walletBalance, operation, accepts)).Ok?)
            && (result.Ok? ==>
                  var v := r.participants[p];
                  && Ok(result.value.1) == Apply(b, now, CallRegisterAndTopUp(p, v.wallet, walletBalance, operation, accepts))
                  && result.value.0 == r.(participants := r.participants[p := v.(initialFundingCompleted := true)],
                                          fundings := r.fundings + [R.Entry(p, v.wallet)]))
  {
    hide RegisterAndTopUp;
  }

  /** A wallet registers one approved role it does not have yet. */
  lemma WhenRoleIsRegistered(r: R.Registry, b: Book, now: uint64, sender: Address, role: bv8, consent: Hash)
    requires R.WalletsOk(r)
    ensures var result := R.Apply(r, b, now, R.CallRegisterSelf(sender, role, consent));
            && (result.Ok? <==>
                  && !r.paused && (role == 1 || role == 2) && consent != 0 && sender in r.ids && r.ids[sender] in r.participants
                  && var v := r.participants[r.ids[sender]];
                  && v.active && (v.registeredRoles != 0 || now <= v.approvalExpiresAt)
                  && v.approvedRoles & role != 0 && v.registeredRoles & role == 0)
            && (result.Ok? ==>
                  var (p, v) := (r.ids[sender], r.participants[r.ids[sender]]);
                  result.value == (r.(participants := r.participants[p := v.(registeredRoles := v.registeredRoles | role)],
                                      consents := r.consents[(p, role) := consent]), b))
  {
    hide R.WalletsOk;
    WalletIsOwn(r, sender);
    RoleCodes(role);
    hide R.SingleRole;
  }

  lemma WalletIsOwn(r: R.Registry, sender: Address)
    requires R.WalletsOk(r)
    ensures sender in r.ids ==> r.ids[sender] in r.participants && r.participants[r.ids[sender]].wallet == sender
  {
  }

  lemma RoleCodes(role: bv8)
    ensures R.SingleRole(role) <==> role == 1 || role == 2
  {
  }
}
