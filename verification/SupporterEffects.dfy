/** Exactly when the supporter token accepts each call and exactly what the call then changes. */
module SupporterEffects {
  import opened Common
  import opened SupporterRules

  /** A new policy becomes the creator's latest version, as it was handed in. */
  lemma WhenPolicyIsSet(s: Sbt, now: uint64, c: Hash, policy: Policy)
    requires SbtOk(s)
    ensures var (r, all) := (Apply(s, now, CallSetEarlyPolicy(c, policy)), PoliciesOf(s, c));
            && (r.Ok? <==>
                  && c != 0 && (policy.active ==> now < policy.earlyUntil && policy.maxEarly > 0)
                  && |all| < 0xFFFF_FFFF_FFFF_FFFF)
            && (r.Ok? ==> r.value == s.(policies := s.policies[c := all + [policy]]))
  {
  }

  /**
   A token is minted exactly for a holder who signed in time with the next nonce and has no active one, and is early
   exactly if the latest policy is active, not over, and has early tokens left.
   */
  lemma WhenSupporterRegisters(s: Sbt, now: uint64, call: Call)
    requires SbtOk(s) && call.CallRegister?
    ensures var (r, id, all) := (Apply(s, now, call), |s.tokens| + 1, PoliciesOf(s, call.c));
            && (r.Ok? <==>
                  && call.c != 0 && call.h != 0 && now as nat <= call.deadline && call.nonce == MintedBy(s.tokens, call.h)
                  && (forall t :: t in s.active ==> !IsFor(s, t, call.c, call.h)) && call.recovered == call.h && call.accepts)
            && (r.Ok? ==>
                  && |r.value.tokens| == id
                  && var m := r.value.tokens[id - 1];
                  && r.value == s.(tokens := s.tokens + [m], active := s.active + {id}, live := s.live + {id})
                  && m == Token(call.c, call.h, m.tier, m.policyVersion, now, call.h, call.deadline)
                  && m.policyVersion as nat == |all| && (m.tier == Supporter || m.tier == EarlySupporter)
                  && (m.tier == EarlySupporter <==>
                        && all != [] && all[|all| - 1].active && now <= all[|all| - 1].earlyUntil
                        && EarlyFor(s.tokens, call.c) < all[|all| - 1].maxEarly as nat))
  {
    NobodyActive(s, call.c, call.h);
    hide ActiveOf;
  }

  lemma NobodyActive(s: Sbt, c: Hash, h: Address)
    requires SbtOk(s)
    ensures ActiveOf(s, c, h) == 0 <==> forall t :: t in s.active ==> !IsFor(s, t, c, h)
    ensures forall x :: |PoliciesOf(s, x)| < 0x1_0000_0000_0000_0000
  {
  }

  /** Only a credential in force can be revoked, and it stays with its holder. */
  lemma WhenRevoked(s: Sbt, now: uint64, t: nat)
    requires SbtOk(s)
    ensures var r := Apply(s, now, CallRevoke(t));
            (r.Ok? <==> t in s.active) && (r.Ok? ==> r.value == s.(active := s.active - {t}))
  {
  }

  /** A token is burned by its holder or by a revoker, by either of them at any time, and by nobody else. */
  lemma WhenBurned(s: Sbt, now: uint64, t: nat, sender: Address, isRevoker: bool)
    requires SbtOk(s)
    ensures var r := Apply(s, now, CallBurn(t, sender, isRevoker));
            && (r.Ok? <==> t in s.live && (isRevoker || (Exists(s, t) && sender == s.tokens[t - 1].holder)))
            && (r.Ok? ==> r.value == s.(active := s.active - {t}, live := s.live - {t}))
  {
  }

  /** No token is ever transferred. */
  lemma NeverTransferred(s: Sbt, now: uint64, t: nat, to: Address)
    requires SbtOk(s)
    ensures !Apply(s, now, CallTransfer(t, to)).Ok?
  {
  }
}
