/** The supporter token contract as it runs: credentials, an index of active tokens, nonces and counts. */
module SupporterSbt {
  import opened Common
  import opened SupporterRules

  datatype Failure = Success | Failed(error: Error)

  ghost predicate Follows(rule: Result<Sbt, Error>, failure: Failure, before: Sbt, after: Sbt) {
    match rule
    case Ok(s) => failure == Success && after == s
    case Revert(e) => failure == Failed(e) && after == before
  }

  datatype EarlyPolicy = EarlyPolicy(earlyUntil: uint64, maxEarlySupporters: uint32, earlyIssued: uint32, version: uint64,
                                     active: bool)

  const NO_POLICY := EarlyPolicy(0, 0, 0, 0, false)

  datatype Credential = Credential(creatorId: Hash, tier: Tier, policyVersion: uint64, issuedAt: uint64, active: bool)

  const NO_CREDENTIAL := Credential(0, NoTier, 0, 0, false)

  function ActiveIn(credentials: map<nat, Credential>): set<nat> {
    set t | t in credentials && credentials[t].active
  }

  /** A stored policy is the latest one, its version the number of policies, its count a recount. */
  ghost predicate PolicyOk(s: Sbt, c: Hash, p: EarlyPolicy) {
    && p.version as nat == |PoliciesOf(s, c)|
    && Policy(p.earlyUntil, p.maxEarlySupporters, p.active) == CurrentPolicy(s, c)
    && p.earlyIssued as nat == EarlyFor(s.tokens, c)
  }

  ghost predicate CredentialsOk(s: Sbt, credentials: map<nat, Credential>, owners: map<nat, Address>) {
    && (forall t :: t in credentials <==> Exists(s, t))
    && owners.Keys == s.live
    && (forall t :: t in owners ==> Exists(s, t) && owners[t] == s.tokens[t - 1].holder)
    && forall t :: t in credentials ==>
      var m := s.tokens[t - 1];
      credentials[t] == Credential(m.creator, m.tier, m.policyVersion, m.issuedAt, t in s.active)
  }

  /** The index names the one active token of every pair. */
  ghost predicate IndexOk(s: Sbt, activeTokenOf: map<(Hash, Address), nat>) {
    forall c, h :: Read(activeTokenOf, (c, h), 0) == ActiveOf(s, c, h)
  }

  ghost predicate CountsOk(s: Sbt, policies: map<Hash, EarlyPolicy>, nonces: map<Address, nat>) {
    && (forall c :: PolicyOk(s, c, Read(policies, c, NO_POLICY)))
    && forall h :: Read(nonces, h, 0) == MintedBy(s.tokens, h)
  }

  // How the stored tables follow the lists

  lemma ActiveAfterMint(s: Sbt, s': Sbt, m: Token, c: Hash, h: Address)
    requires SbtOk(s) && SbtOk(s') && s'.tokens == s.tokens + [m] && s'.active == s.active + {|s.tokens| + 1}
    ensures ActiveOf(s', c, h) == if (c, h) == (m.creator, m.holder) then |s.tokens| + 1 else ActiveOf(s, c, h)
  {
  }

  lemma IndexAfterMint(s: Sbt, s': Sbt, m: Token, activeTokenOf: map<(Hash, Address), nat>)
    requires SbtOk(s) && SbtOk(s') && s'.tokens == s.tokens + [m] && s'.active == s.active + {|s.tokens| + 1}
    requires IndexOk(s, activeTokenOf)
    ensures IndexOk(s', activeTokenOf[(m.creator, m.holder) := |s.tokens| + 1])
  {
  }

  /** Dropping token t clears exactly the pair it stood for. */
  lemma IndexAfterDrop(s: Sbt, s': Sbt, now: uint64, call: Call, activeTokenOf: map<(Hash, Address), nat>)
    requires SbtOk(s) && (call.CallRevoke? || call.CallBurn?) && Apply(s, now, call) == Ok(s') && IndexOk(s, activeTokenOf)
    requires Exists(s, call.t) && call.t in s.active
    ensures var m := s.tokens[call.t - 1]; IndexOk(s', activeTokenOf[(m.creator, m.holder) := 0])
  {
    var m := s.tokens[call.t - 1];
    hide SbtOk, Apply;
    forall c, h ensures Read(activeTokenOf[(m.creator, m.holder) := 0], (c, h), 0) == ActiveOf(s', c, h) {
      OldTokensClearNothing(s, s', now, call, c, h);
      ActiveIsUnique(s, c, h, call.t);
    }
  }

  lemma IndexUntouched(s: Sbt, s': Sbt, now: uint64, call: Call, activeTokenOf: map<(Hash, Address), nat>)
    requires SbtOk(s) && call.CallBurn? && Apply(s, now, call) == Ok(s') && IndexOk(s, activeTokenOf)
    requires call.t !in s.active
    ensures IndexOk(s', activeTokenOf)
  {
    hide SbtOk, Apply;
    forall c, h ensures Read(activeTokenOf, (c, h), 0) == ActiveOf(s', c, h) {
      OldTokensClearNothing(s, s', now, call, c, h);
      assert ActiveOf(s, c, h) == call.t ==> call.t == 0;
    }
  }

  lemma CountsAfterMint(s: Sbt, s': Sbt, m: Token, policies: map<Hash, EarlyPolicy>, nonces: map<Address, nat>,
                        p: EarlyPolicy)
    requires s' == s.(tokens := s.tokens + [m], active := s'.active, live := s'.live) && CountsOk(s, policies, nonces)
    requires var q := Read(policies, m.creator, NO_POLICY);
             p == q.(earlyIssued := p.earlyIssued)
             && p.earlyIssued as nat == q.earlyIssued as nat + if m.tier == EarlySupporter then 1 else 0
    ensures CountsOk(s', policies[m.creator := p], nonces[m.holder := MintedBy(s.tokens, m.holder) + 1])
  {
    assert s'.tokens[..|s.tokens|] == s.tokens;
    var later := policies[m.creator := p];
    forall c ensures PolicyOk(s', c, Read(later, c, NO_POLICY)) {
      assert PolicyOk(s, c, Read(policies, c, NO_POLICY));
      assert PoliciesOf(s', c) == PoliciesOf(s, c) && CurrentPolicy(s', c) == CurrentPolicy(s, c);
    }
    forall h ensures Read(nonces[m.holder := MintedBy(s.tokens, m.holder) + 1], h, 0) == MintedBy(s'.tokens, h) {
      assert Read(nonces, h, 0) == MintedBy(s.tokens, h);
    }
  }

  lemma CountsAfterPolicy(s: Sbt, s': Sbt, now: uint64, call: Call, policies: map<Hash, EarlyPolicy>,
                          nonces: map<Address, nat>, p: EarlyPolicy)
    requires call.CallSetEarlyPolicy? && SetEarlyPolicy(s, now, call.c, call.policy) == Ok(s')
    requires CountsOk(s, policies, nonces)
    requires var q := Read(policies, call.c, NO_POLICY);
             p.earlyIssued == q.earlyIssued && p.version as nat == q.version as nat + 1
             && Policy(p.earlyUntil, p.maxEarlySupporters, p.active) == call.policy
    ensures CountsOk(s', policies[call.c := p], nonces)
  {
    var later := policies[call.c := p];
    forall c ensures PolicyOk(s', c, Read(later, c, NO_POLICY)) {
      assert PolicyOk(s, c, Read(policies, c, NO_POLICY));
    }
  }

  lemma CountsKnown(s: Sbt, policies: map<Hash, EarlyPolicy>, nonces: map<Address, nat>, c: Hash, h: Address)
    requires CountsOk(s, policies, nonces)
    ensures PolicyOk(s, c, Read(policies, c, NO_POLICY)) && Read(nonces, h, 0) == MintedBy(s.tokens, h)
  {
  }

  /** Policies and nonces do not look at which tokens are active. */
  lemma CountsAfterDrop(s: Sbt, s': Sbt, policies: map<Hash, EarlyPolicy>, nonces: map<Address, nat>)
    requires CountsOk(s, policies, nonces) && s' == s.(active := s'.active, live := s'.live)
    ensures CountsOk(s', policies, nonces)
  {
  }

  /** One more token: every table follows. */
  lemma Minted(s: Sbt, s': Sbt, m: Token, now: uint64, call: Call, credentials: map<nat, Credential>,
               owners: map<nat, Address>, activeTokenOf: map<(Hash, Address), nat>, policies: map<Hash, EarlyPolicy>,
               nonces: map<Address, nat>, p: EarlyPolicy)
    requires SbtOk(s) && call.CallRegister? && Apply(s, now, call) == Ok(s') && s'.tokens == s.tokens + [m]
    requires CredentialsOk(s, credentials, owners) && IndexOk(s, activeTokenOf) && CountsOk(s, policies, nonces)
    requires var q := Read(policies, m.creator, NO_POLICY);
             p == q.(earlyIssued := p.earlyIssued)
             && p.earlyIssued as nat == q.earlyIssued as nat + if m.tier == EarlySupporter then 1 else 0
    ensures var id := |s.tokens| + 1;
            var later := credentials[id := Credential(m.creator, m.tier, m.policyVersion, m.issuedAt, true)];
            && SbtOk(s') && s' == s.(tokens := s.tokens + [m], active := s.active + {id}, live := s.live + {id})
            && CredentialsOk(s', later, owners[id := m.holder]) && ActiveIn(later) == ActiveIn(credentials) + {id}
            && IndexOk(s', activeTokenOf[(m.creator, m.holder) := id]) && ActiveOf(s', m.creator, m.holder) == id
            && CountsOk(s', policies[m.creator := p], nonces[m.holder := MintedBy(s.tokens, m.holder) + 1])
  {
    hide SbtOk, CredentialsOk, IndexOk, CountsOk, Later, ActiveIn, ActiveOf, PolicyOk;
    RegisterKeeps(s, s', now, call);
    IndexAfterMint(s, s', m, activeTokenOf);
    ActiveAfterMint(s, s', m, m.creator, m.holder);
    CountsAfterMint(s, s', m, policies, nonces, p);
    CredentialsAfterMint(s, s', m, credentials, owners);
    ActiveSetAfterMint(s, credentials, owners, Credential(m.creator, m.tier, m.policyVersion, m.issuedAt, true));
  }

  class SupporterSbt {
    var nextTokenId: nat
    var earlyPolicies: map<Hash, EarlyPolicy>
    var credentials: map<nat, Credential>
    var activeTokenOf: map<(Hash, Address), nat>
    var nonces: map<Address, nat>
    var owners: map<nat, Address>
    ghost var tokens: seq<Token>
    ghost var policies: map<Hash, seq<Policy>>

    ghost function State(): Sbt
      reads this
    {
      Sbt(tokens, ActiveIn(credentials), owners.Keys, policies)
    }

    ghost predicate Valid()
      reads this
    {
      && SbtOk(State()) && nextTokenId == |tokens| + 1
      && CredentialsOk(State(), credentials, owners)
      && IndexOk(State(), activeTokenOf)
      && CountsOk(State(), earlyPolicies, nonces)
    }

    ghost function Rule(now: uint64, call: Call): Result<Sbt, Error>
      requires Valid()
      reads this
    {
      Apply(State(), now, call)
    }

    constructor ()
      ensures Valid() && State() == DEPLOYED
    {
      nextTokenId, earlyPolicies, credentials := 1, map[], map[];
      activeTokenOf, nonces, owners := map[], map[], map[];
      tokens, policies := [], map[];
    }

    method SetEarlyPolicy(now: uint64, c: Hash, p: Policy) returns (failure: Failure)
      requires Valid()
      modifies this`earlyPolicies, this`policies
      ensures Valid()
      ensures Follows(old(Rule(now, CallSetEarlyPolicy(c, p))), failure, old(State()), State())
    {
      hide SbtOk, CredentialsOk, IndexOk, CountsOk;
      if c == 0 { return Failed(InvalidCreator); }
      if p.active && (p.earlyUntil <= now || p.maxEarly == 0) { return Failed(InvalidPolicy); }
      CountsKnown(State(), earlyPolicies, nonces, c, 0);
      var policy := Read(earlyPolicies, c, NO_POLICY);
      if policy.version == 0xFFFF_FFFF_FFFF_FFFF { return Failed(ArithmeticPanic); }
      policy := policy.(earlyUntil := p.earlyUntil, maxEarlySupporters := p.maxEarly, version := policy.version + 1,
                        active := p.active);
      PolicyStored(now, c, p, policy);
      failure := Success;
    }

    method PolicyStored(now: uint64, c: Hash, p: Policy, policy: EarlyPolicy)
      requires Valid() && SupporterRules.SetEarlyPolicy(State(), now, c, p).Ok?
      requires var q := Read(earlyPolicies, c, NO_POLICY);
               policy == EarlyPolicy(p.earlyUntil, p.maxEarly, q.earlyIssued, policy.version, p.active)
               && policy.version as nat == q.version as nat + 1
      modifies this`earlyPolicies, this`policies
      ensures Valid() && Ok(State()) == SupporterRules.SetEarlyPolicy(old(State()), now, c, p)
    {
      hide SbtOk, CredentialsOk, IndexOk, CountsOk, Later;
      ghost var s, s' := State(), SupporterRules.SetEarlyPolicy(State(), now, c, p).value;
      CountsAfterPolicy(s, s', now, CallSetEarlyPolicy(c, p), earlyPolicies, nonces, policy);
      PoliciesCounted(s);
      ApplyKeeps(s, s', now, CallSetEarlyPolicy(c, p));
      TablesAfterPolicy(s, s', credentials, owners, activeTokenOf);
      earlyPolicies := earlyPolicies[c := policy];
      policies := s'.policies;
      assert State() == s';
    }

    method RegisterSupporterWithSignature(now: uint64, c: Hash, h: Address, nonce: nat, deadline: nat,
                                          recovered: Address, accepts: bool)
      returns (failure: Failure, tokenId: nat, tier: Tier)
      requires Valid()
      modifies this
      ensures Valid()
      ensures Follows(old(Rule(now, CallRegister(c, h, nonce, deadline, recovered, accepts))), failure, old(State()), State())
      ensures failure == Success ==> tokenId == |tokens| == ActiveOf(State(), c, h) && tier == tokens[tokenId - 1].tier
    {
      hide SbtOk, CredentialsOk, IndexOk, CountsOk;
      tokenId, tier := 0, NoTier;
      if c == 0 { return Failed(InvalidCreator), 0, NoTier; }
      if h == 0 { return Failed(InvalidAddress), 0, NoTier; }
      if now as nat > deadline { return Failed(SignatureExpired), 0, NoTier; }
      CountsKnown(State(), earlyPolicies, nonces, c, h);
      var expectedNonce := Read(nonces, h, 0);
      if nonce != expectedNonce { return Failed(InvalidNonce), 0, NoTier; }
      IndexKnown(State(), activeTokenOf, c, h);
      if Read(activeTokenOf, (c, h), 0) != 0 { return Failed(CredentialAlreadyActive), 0, NoTier; }
      if recovered != h { return Failed(InvalidSignature), 0, NoTier; }
      if !accepts { return Failed(InvalidReceiver), 0, NoTier; }

      var policy := Read(earlyPolicies, c, NO_POLICY);
      var isEarly := policy.active && now <= policy.earlyUntil && policy.earlyIssued < policy.maxEarlySupporters;
      tier := if isEarly then EarlySupporter else Supporter;
      if isEarly { policy := policy.(earlyIssued := policy.earlyIssued + 1); }
      tokenId := Mint(now, c, h, tier, policy, CallRegister(c, h, nonce, deadline, recovered, accepts));
      failure := Success;
    }

    /** Credential, index, nonce, count and owner are written together. */
    method Mint(now: uint64, c: Hash, h: Address, tier: Tier, policy: EarlyPolicy, ghost call: Call)
      returns (tokenId: nat)
      requires Valid() && call.CallRegister? && call.c == c && call.h == h
      requires Rule(now, call).Ok? && Rule(now, call).value.tokens == tokens + [Token(c, h, tier, policy.version, now, call.recovered, call.deadline)]
      requires var q := Read(earlyPolicies, c, NO_POLICY);
               policy == q.(earlyIssued := policy.earlyIssued)
               && policy.earlyIssued as nat == q.earlyIssued as nat + if tier == EarlySupporter then 1 else 0
      modifies this
      ensures Valid() && Ok(State()) == old(Rule(now, call)) && tokenId == |tokens| == ActiveOf(State(), c, h)
    {
      hide SbtOk, CredentialsOk, IndexOk, CountsOk, ActiveIn, ActiveOf, PolicyOk;
      ghost var m := Token(c, h, tier, policy.version, now, call.recovered, call.deadline);
      PoliciesCounted(State());
      ghost var s, s' := State(), Rule(now, call).value;
      hide Apply;
      Minted(s, s', m, now, call, credentials, owners, activeTokenOf, earlyPolicies, nonces, policy);
      CountsKnown(s, earlyPolicies, nonces, c, h);
      tokenId := nextTokenId;
      nonces := nonces[h := Read(nonces, h, 0) + 1];
      earlyPolicies := earlyPolicies[c := policy];
      nextTokenId := nextTokenId + 1;
      credentials := credentials[tokenId := Credential(c, tier, policy.version, now, true)];
      activeTokenOf := activeTokenOf[(c, h) := tokenId];
      owners := owners[tokenId := h];
      tokens := tokens + [m];
      assert State() == s';
    }

    method Revoke(now: uint64, t: nat) returns (failure: Failure)
      requires Valid()
      modifies this`credentials, this`activeTokenOf
      ensures Valid()
      ensures Follows(old(Rule(now, CallRevoke(t))), failure, old(State()), State())
    {
      hide SbtOk, CredentialsOk, IndexOk, CountsOk, Later;
      CredentialKnown(State(), credentials, owners, t);
      var credential := Read(credentials, t, NO_CREDENTIAL);
      if !credential.active { return Failed(CredentialNotActive); }
      var holder := owners[t];
      ghost var s, s' := State(), State().(active := State().active - {t});
      PoliciesCounted(s);
      assert Apply(s, now, CallRevoke(t)) == Ok(s');
      ApplyKeeps(s, s', now, CallRevoke(t));
      IndexAfterDrop(s, s', now, CallRevoke(t), activeTokenOf);
      CountsAfterDrop(s, s', earlyPolicies, nonces);
      CredentialsAfterDrop(s, s', credentials, owners, t, owners);
      ActiveSetAfterDrop(credentials, t);
      credentials := credentials[t := credential.(active := false)];
      activeTokenOf := activeTokenOf[(credential.creatorId, holder) := 0];
      failure := Success;
      assert State() == s';
    }

    method Burn(now: uint64, t: nat, sender: Address, isRevoker: bool) returns (failure: Failure)
      requires Valid()
      modifies this`credentials, this`activeTokenOf, this`owners
      ensures Valid()
      ensures Follows(old(Rule(now, CallBurn(t, sender, isRevoker))), failure, old(State()), State())
    {
      hide SbtOk, CredentialsOk, IndexOk, CountsOk, Later;
      CredentialKnown(State(), credentials, owners, t);
      if t !in owners { return Failed(NonexistentToken); }
      var holder := owners[t];
      if sender != holder && !isRevoker { return Failed(InvalidAddress); }
      var credential := credentials[t];
      ghost var call := CallBurn(t, sender, isRevoker);
      ghost var s, s' := State(), State().(active := State().active - {t}, live := State().live - {t});
      PoliciesCounted(s);
      assert Apply(s, now, call) == Ok(s');
      ApplyKeeps(s, s', now, call);
      CountsAfterDrop(s, s', earlyPolicies, nonces);
      CredentialsAfterDrop(s, s', credentials, owners, t, owners - {t});
      ActiveSetAfterDrop(credentials, t);
      if credential.active {
        IndexAfterDrop(s, s', now, call, activeTokenOf);
        credentials := credentials[t := credential.(active := false)];
        activeTokenOf := activeTokenOf[(credential.creatorId, holder) := 0];
      } else {
        IndexUntouched(s, s', now, call, activeTokenOf);
        assert credentials == credentials[t := credential.(active := false)];
      }
      owners := owners - {t};
      failure := Success;
      assert State() == s';
    }

    /** NONE exactly without an active credential; otherwise the tier of the one active token. */
    method GetSupporterTier(c: Hash, h: Address) returns (tier: Tier)
      requires Valid()
      ensures tier == NoTier <==> forall t :: t in State().active ==> !IsFor(State(), t, c, h)
      ensures forall t :: t in State().active && IsFor(State(), t, c, h) ==> tier == tokens[t - 1].tier
    {
      hide IndexOk, CountsOk;
      IndexKnown(State(), activeTokenOf, c, h);
      var tokenId := Read(activeTokenOf, (c, h), 0);
      if tokenId == 0 { return NoTier; }
      tier := credentials[tokenId].tier;
      assert Granted(State(), tokenId - 1);
      forall t | t in State().active && IsFor(State(), t, c, h) ensures t == tokenId {
        ActiveIsUnique(State(), c, h, t);
      }
    }
  }

  lemma IndexKnown(s: Sbt, activeTokenOf: map<(Hash, Address), nat>, c: Hash, h: Address)
    requires IndexOk(s, activeTokenOf)
    ensures Read(activeTokenOf, (c, h), 0) == ActiveOf(s, c, h)
  {
  }

  lemma CredentialKnown(s: Sbt, credentials: map<nat, Credential>, owners: map<nat, Address>, t: nat)
    requires CredentialsOk(s, credentials, owners) && SbtOk(s)
    ensures t in s.live <==> t in owners
    ensures t in owners ==> Exists(s, t) && t in credentials && owners[t] == s.tokens[t - 1].holder
    ensures t in credentials ==> Exists(s, t) && credentials[t].creatorId == s.tokens[t - 1].creator
    ensures Read(credentials, t, NO_CREDENTIAL).active <==> t in s.active
    ensures t in s.active ==> t in owners && t in credentials
  {
  }

  lemma TablesAfterPolicy(s: Sbt, s': Sbt, credentials: map<nat, Credential>, owners: map<nat, Address>,
                          activeTokenOf: map<(Hash, Address), nat>)
    requires CredentialsOk(s, credentials, owners) && IndexOk(s, activeTokenOf) && s' == s.(policies := s'.policies)
    requires SbtOk(s) && SbtOk(s')
    ensures CredentialsOk(s', credentials, owners) && IndexOk(s', activeTokenOf)
  {
  }

  lemma CredentialsAfterMint(s: Sbt, s': Sbt, m: Token, credentials: map<nat, Credential>, owners: map<nat, Address>)
    requires CredentialsOk(s, credentials, owners) && SbtOk(s)
    requires s' == s.(tokens := s.tokens + [m], active := s.active + {|s.tokens| + 1}, live := s.live + {|s.tokens| + 1})
    ensures var id := |s.tokens| + 1;
            CredentialsOk(s', credentials[id := Credential(m.creator, m.tier, m.policyVersion, m.issuedAt, true)],
                          owners[id := m.holder])
  {
  }

  lemma ActiveSetAfterMint(s: Sbt, credentials: map<nat, Credential>, owners: map<nat, Address>, minted: Credential)
    requires CredentialsOk(s, credentials, owners) && minted.active
    ensures var later := credentials[|s.tokens| + 1 := minted];
            ActiveIn(later) == ActiveIn(credentials) + {|s.tokens| + 1}
  {
  }

  lemma ActiveSetAfterDrop(credentials: map<nat, Credential>, t: nat)
    requires t in credentials
    ensures var later := credentials[t := credentials[t].(active := false)];
            ActiveIn(later) == ActiveIn(credentials) - {t}
  {
  }

  lemma CredentialsAfterDrop(s: Sbt, s': Sbt, credentials: map<nat, Credential>, owners: map<nat, Address>, t: nat,
                             owners': map<nat, Address>)
    requires CredentialsOk(s, credentials, owners) && t in credentials
    requires s' == s.(active := s.active - {t}, live := s'.live)
    requires (owners' == owners && s'.live == s.live) || (owners' == owners - {t} && s'.live == s.live - {t})
    ensures CredentialsOk(s', credentials[t := credentials[t].(active := false)], owners')
  {
  }
}
