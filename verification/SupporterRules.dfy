/**
 What SupporterSBTUpgradeable promises, stated on the list of all tokens ever minted and the list
 of policies ever set. Nonces, early counts and the active-token index are read off these lists.
 */
module SupporterRules {
  import opened Common
  import opened FiniteSums

  datatype Tier = NoTier | Supporter | EarlySupporter

  /** Token number t is tokens[t - 1]. signer and deadline are history: who signed the intent, valid until when. */
  datatype Token = Token(creator: Hash, holder: Address, tier: Tier, policyVersion: uint64, issuedAt: uint64,
                         signer: Address, deadline: nat)

  datatype Policy = Policy(earlyUntil: uint64, maxEarly: uint32, active: bool)

  /** active: credentials in force. live: tokens not burned. policies[c][v - 1] is version v for creator c. */
  datatype Sbt = Sbt(tokens: seq<Token>, active: set<nat>, live: set<nat>, policies: map<Hash, seq<Policy>>)

  const DEPLOYED := Sbt([], {}, {}, map[])

  datatype Error =
    | InvalidAddress | InvalidCreator | InvalidPolicy | SignatureExpired | InvalidNonce | InvalidSignature
    | CredentialAlreadyActive | CredentialNotActive | NonexistentToken | InvalidReceiver | Soulbound | ArithmeticPanic

  // Counting

  function MintedBy(tokens: seq<Token>, h: Address): nat {
    if tokens == [] then 0
    else MintedBy(tokens[..|tokens| - 1], h) + if tokens[|tokens| - 1].holder == h then 1 else 0
  }

  function IsEarlyFor(t: Token, c: Hash): bool { t.creator == c && t.tier == EarlySupporter }

  function EarlyFor(tokens: seq<Token>, c: Hash): nat {
    if tokens == [] then 0
    else EarlyFor(tokens[..|tokens| - 1], c) + if IsEarlyFor(tokens[|tokens| - 1], c) then 1 else 0
  }

  predicate Exists(s: Sbt, t: nat) { 1 <= t <= |s.tokens| }

  predicate IsFor(s: Sbt, t: nat, c: Hash, h: Address) {
    Exists(s, t) && s.tokens[t - 1].creator == c && s.tokens[t - 1].holder == h
  }

  /** The active credential of a pair, if any. */
  ghost function ActiveOf(s: Sbt, c: Hash, h: Address): (t: nat)
    ensures t != 0 ==> t in s.active && IsFor(s, t, c, h)
    ensures t == 0 ==> forall u :: u in s.active ==> !IsFor(s, u, c, h)
  {
    if t: nat :| t in s.active && IsFor(s, t, c, h) then t else 0
  }

  function PoliciesOf(s: Sbt, c: Hash): seq<Policy> { Read(s.policies, c, []) }

  function CurrentPolicy(s: Sbt, c: Hash): Policy {
    var all := PoliciesOf(s, c);
    if all == [] then Policy(0, 0, false) else all[|all| - 1]
  }

  // Operations

  function SetEarlyPolicy(s: Sbt, now: uint64, c: Hash, p: Policy): Result<Sbt, Error> {
    if c == 0 then Revert(InvalidCreator)
    else if p.active && (p.earlyUntil <= now || p.maxEarly == 0) then Revert(InvalidPolicy)
    else if |PoliciesOf(s, c)| + 1 >= 0x1_0000_0000_0000_0000 then Revert(ArithmeticPanic)
    else Ok(s.(policies := s.policies[c := PoliciesOf(s, c) + [p]]))
  }

  function TierNow(s: Sbt, now: uint64, c: Hash): Tier {
    var p := CurrentPolicy(s, c);
    if p.active && now <= p.earlyUntil && EarlyFor(s.tokens, c) < p.maxEarly as nat then EarlySupporter else Supporter
  }

  /** recovered is the signer of the support intent; accepts says whether the holder takes the token. */
  ghost function Register(s: Sbt, now: uint64, c: Hash, h: Address, nonce: nat, deadline: nat, recovered: Address,
                          accepts: bool): Result<Sbt, Error>
    requires forall x :: |PoliciesOf(s, x)| < 0x1_0000_0000_0000_0000
  {
    if c == 0 then Revert(InvalidCreator)
    else if h == 0 then Revert(InvalidAddress)
    else if now as nat > deadline then Revert(SignatureExpired)
    else if nonce != MintedBy(s.tokens, h) then Revert(InvalidNonce)
    else if ActiveOf(s, c, h) != 0 then Revert(CredentialAlreadyActive)
    else if recovered != h then Revert(InvalidSignature)
    else if !accepts then Revert(InvalidReceiver)
    else
      var t := Token(c, h, TierNow(s, now, c), |PoliciesOf(s, c)| as uint64, now, recovered, deadline);
      var id := |s.tokens| + 1;
      Ok(s.(tokens := s.tokens + [t], active := s.active + {id}, live := s.live + {id}))
  }

  function Revoke(s: Sbt, t: nat): Result<Sbt, Error> {
    if t !in s.active then Revert(CredentialNotActive) else Ok(s.(active := s.active - {t}))
  }

  function Burn(s: Sbt, t: nat, sender: Address, isRevoker: bool): Result<Sbt, Error> {
    if t !in s.live || !Exists(s, t) then Revert(NonexistentToken)
    else if sender != s.tokens[t - 1].holder && !isRevoker then Revert(InvalidAddress)
    else Ok(s.(active := s.active - {t}, live := s.live - {t}))
  }

  /** Any ERC-721 transfer. */
  function Transfer(s: Sbt, t: nat, to: Address): Result<Sbt, Error> {
    if to == 0 then Revert(InvalidReceiver)
    else if t in s.live then Revert(Soulbound)
    else Revert(NonexistentToken)
  }

  datatype Call =
    | CallSetEarlyPolicy(c: Hash, policy: Policy)
    | CallRegister(c: Hash, h: Address, nonce: nat, deadline: nat, recovered: Address, accepts: bool)
    | CallRevoke(t: nat)
    | CallBurn(t: nat, sender: Address, isRevoker: bool)
    | CallTransfer(t: nat, to: Address)

  ghost function Apply(s: Sbt, now: uint64, call: Call): Result<Sbt, Error>
    requires forall x :: |PoliciesOf(s, x)| < 0x1_0000_0000_0000_0000
  {
    match call
    case CallSetEarlyPolicy(c, policy) => SetEarlyPolicy(s, now, c, policy)
    case CallRegister(c, h, nonce, deadline, recovered, accepts) =>
      Register(s, now, c, h, nonce, deadline, recovered, accepts)
    case CallRevoke(t) => Revoke(s, t)
    case CallBurn(t, sender, isRevoker) => Burn(s, t, sender, isRevoker)
    case CallTransfer(t, to) => Transfer(s, t, to)
  }

  // What every call keeps

  /** Token i carries the policy version of its time, and is early exactly if that policy granted it. */
  predicate Granted(s: Sbt, i: nat)
    requires i < |s.tokens|
  {
    var t, all := s.tokens[i], PoliciesOf(s, s.tokens[i].creator);
    && t.creator != 0 && t.holder != 0 && t.signer == t.holder && t.issuedAt as nat <= t.deadline
    && t.tier != NoTier && t.policyVersion as nat <= |all|
    && (t.tier == EarlySupporter <==>
          && t.policyVersion != 0
          && var p := all[t.policyVersion as nat - 1];
             p.active && t.issuedAt <= p.earlyUntil && EarlyFor(s.tokens[..i], t.creator) < p.maxEarly as nat)
  }

  ghost predicate SbtOk(s: Sbt) {
    && (forall x :: |PoliciesOf(s, x)| < 0x1_0000_0000_0000_0000)
    && (forall t :: t in s.active ==> t in s.live)
    && (forall t :: t in s.live ==> Exists(s, t))
    && (forall t, u :: t in s.active && u in s.active && t != u && Exists(s, t) && Exists(s, u) ==>
          !IsFor(s, u, s.tokens[t - 1].creator, s.tokens[t - 1].holder))
    && forall i :: 0 <= i < |s.tokens| ==> Granted(s, i)
  }

  /** Minting appends, policies are only added, and nothing revoked or burned comes back. */
  ghost predicate Later(s: Sbt, s': Sbt) {
    && s.tokens <= s'.tokens
    && (forall c :: PoliciesOf(s, c) <= PoliciesOf(s', c))
    && (forall t :: t in s'.active && Exists(s, t) ==> t in s.active)
    && (forall t :: t in s'.live && Exists(s, t) ==> t in s.live)
  }

  lemma StillGranted(s: Sbt, s': Sbt, i: nat)
    requires i < |s.tokens| && Granted(s, i) && s.tokens <= s'.tokens
    requires PoliciesOf(s, s.tokens[i].creator) <= PoliciesOf(s', s.tokens[i].creator)
    ensures Granted(s', i)
  {
    assert s'.tokens[..i] == s.tokens[..i];
  }

  lemma RegisterKeeps(s: Sbt, s': Sbt, now: uint64, call: Call)
    requires SbtOk(s) && call.CallRegister? && Apply(s, now, call) == Ok(s')
    ensures SbtOk(s') && Later(s, s')
  {
    forall x ensures PoliciesOf(s', x) == PoliciesOf(s, x) && |PoliciesOf(s', x)| < 0x1_0000_0000_0000_0000 {
      assert |PoliciesOf(s, x)| < 0x1_0000_0000_0000_0000;
    }
    assert s'.tokens[..|s.tokens|] == s.tokens;
    assert forall t :: Exists(s, t) ==> s'.tokens[t - 1] == s.tokens[t - 1];
    forall t | t in s.active ensures !IsFor(s', t, call.c, call.h) {
      assert !IsFor(s, t, call.c, call.h);
    }
    forall i | 0 <= i < |s'.tokens| ensures Granted(s', i) {
      if i < |s.tokens| { StillGranted(s, s', i); }
    }
  }

  lemma ApplyKeeps(s: Sbt, s': Sbt, now: uint64, call: Call)
    requires SbtOk(s) && Apply(s, now, call) == Ok(s')
    ensures SbtOk(s') && Later(s, s')
  {
    if call.CallRegister? {
      RegisterKeeps(s, s', now, call);
    } else {
      assert s'.tokens == s.tokens;
      forall x ensures PoliciesOf(s, x) <= PoliciesOf(s', x) && |PoliciesOf(s', x)| < 0x1_0000_0000_0000_0000 {
        assert |PoliciesOf(s, x)| < 0x1_0000_0000_0000_0000;
      }
      assert forall t :: Exists(s', t) == Exists(s, t);
      forall i | 0 <= i < |s'.tokens| ensures Granted(s', i) {
        StillGranted(s, s', i);
      }
    }
  }

  /** A pair has at most one active credential. */
  lemma ActiveIsUnique(s: Sbt, c: Hash, h: Address, t: nat)
    requires SbtOk(s)
    ensures t != 0 && ActiveOf(s, c, h) == t <==> t in s.active && IsFor(s, t, c, h)
  {
  }

  /** Revoking or burning a token, however old, never clears another token's standing. */
  lemma OldTokensClearNothing(s: Sbt, s': Sbt, now: uint64, call: Call, c: Hash, h: Address)
    requires SbtOk(s) && (call.CallRevoke? || call.CallBurn?) && Apply(s, now, call) == Ok(s')
    ensures ActiveOf(s', c, h) == if ActiveOf(s, c, h) == call.t then 0 else ActiveOf(s, c, h)
  {
    ApplyKeeps(s, s', now, call);
    hide SbtOk;
    assert forall t :: IsFor(s', t, c, h) == IsFor(s, t, c, h);
    ActiveIsUnique(s, c, h, ActiveOf(s, c, h));
    ActiveIsUnique(s', c, h, ActiveOf(s, c, h));
    ActiveIsUnique(s, c, h, ActiveOf(s', c, h));
    ActiveIsUnique(s, c, h, call.t);
  }

  ghost function MintedByEach(tokens: seq<Token>): Address -> int { (h: Address) => MintedBy(tokens, h) }

  /** The nonces of all holders add up to the tokens ever minted. */
  lemma {:induction false} NoncesAddUp(tokens: seq<Token>, holders: set<Address>)
    requires forall i :: 0 <= i < |tokens| ==> tokens[i].holder in holders
    ensures Sum(holders, MintedByEach(tokens)) == |tokens|
    decreases |tokens|
  {
    if tokens == [] {
      SumScaled(holders, MintedByEach(tokens), MintedByEach(tokens), 0);
    } else {
      var before := tokens[..|tokens| - 1];
      NoncesAddUp(before, holders);
      SumReplace(holders, MintedByEach(before), MintedByEach(tokens), tokens[|tokens| - 1].holder);
    }
  }

  /** Nobody is granted early status beyond the limit of the policy their token was issued under. */
  lemma {:induction false} EarlyWithinPolicy(s: Sbt, n: nat, c: Hash, maximum: nat)
    requires SbtOk(s) && n <= |s.tokens|
    requires forall v :: 0 <= v < |PoliciesOf(s, c)| && PoliciesOf(s, c)[v].active ==> PoliciesOf(s, c)[v].maxEarly as nat <= maximum
    ensures EarlyFor(s.tokens[..n], c) <= maximum
  {
    if n > 0 {
      EarlyWithinPolicy(s, n - 1, c, maximum);
      assert s.tokens[..n][..n - 1] == s.tokens[..n - 1];
      assert Granted(s, n - 1);
    }
  }

  // Runs

  datatype Event = Event(now: uint64, call: Call)

  ghost function Step(s: Sbt, e: Event): Sbt
    requires forall x :: |PoliciesOf(s, x)| < 0x1_0000_0000_0000_0000
  {
    match Apply(s, e.now, e.call)
    case Ok(s') => s'
    case Revert(_) => s
  }

  lemma StepKeeps(s: Sbt, e: Event)
    requires SbtOk(s)
    ensures SbtOk(Step(s, e)) && Later(s, Step(s, e))
  {
    hide SbtOk, Later;
    assert forall x :: |PoliciesOf(s, x)| < 0x1_0000_0000_0000_0000 by { PoliciesCounted(s); }
    if Apply(s, e.now, e.call).Ok? { ApplyKeeps(s, Step(s, e), e.now, e.call); } else { LaterReflexive(s); }
  }

  lemma PoliciesCounted(s: Sbt)
    requires SbtOk(s)
    ensures forall x :: |PoliciesOf(s, x)| < 0x1_0000_0000_0000_0000
  {
  }

  lemma LaterReflexive(s: Sbt)
    ensures Later(s, s)
  {
  }

  lemma LaterTransitive(a: Sbt, b: Sbt, c: Sbt)
    requires Later(a, b) && Later(b, c)
    ensures Later(a, c)
  {
  }

  ghost function Run(s: Sbt, events: seq<Event>): (r: Sbt)
    requires SbtOk(s)
    ensures SbtOk(r) && Later(s, r)
  {
    LaterReflexive(s);
    if events == [] then s
    else
      var before := Run(s, events[..|events| - 1]);
      StepKeeps(before, events[|events| - 1]);
      LaterTransitive(s, before, Step(before, events[|events| - 1]));
      Step(before, events[|events| - 1])
  }

  /** A token never changes hands, and once inactive or burned it stays so, in every run. */
  lemma TokensAreFinal(s: Sbt, events: seq<Event>, t: nat)
    requires SbtOk(s) && Exists(s, t)
    ensures var s' := Run(s, events);
            && Exists(s', t) && s'.tokens[t - 1] == s.tokens[t - 1]
            && (t !in s.active ==> t !in s'.active) && (t !in s.live ==> t !in s'.live)
  {
  }
}
