/**
 * The challenge-response handshake on one connection record: a `user:profile` claim
 * stores the claimed identity with a fresh nonce, and an `auth:response` whose
 * signature over `concord:auth:<nonce>:<publicKey>` checks out authenticates the
 * record; a bad signature wipes the claim.
 */
module Auth {
  import opened Wrappers
  import opened Protocol
  import opened Config
  import opened Connections

  const ChallengePrefix := "concord:auth:"

  /** The text a client signs to answer a challenge. */
  function ChallengeMessage(nonce: string, publicKey: string): string {
    ChallengePrefix + nonce + ":" + publicKey
  }

  /**
   * For nonces of one length, two challenge texts are equal only for the same nonce
   * and the same key: a signature answers exactly one challenge for one identity.
   */
  lemma ChallengeBinds(n1: string, k1: string, n2: string, k2: string)
    requires |n1| == |n2|
    requires ChallengeMessage(n1, k1) == ChallengeMessage(n2, k2)
    ensures n1 == n2 && k1 == k2
  {
    var m1 := ChallengeMessage(n1, k1);
    var m2 := ChallengeMessage(n2, k2);
    var p := |ChallengePrefix|;
    assert m1[p..p + |n1|] == n1;
    assert m2[p..p + |n2|] == n2;
    assert m1[p + |n1| + 1..] == k1;
    assert m2[p + |n2| + 1..] == k2;
  }

  /** `conn.publicKey && conn.authNonce`: a claim is waiting for its response. */
  predicate PendingClaim(c: Conn) {
    Truthy(c.publicKey) && Truthy(c.authNonce)
  }

  /** The unauthenticated branch of `user:profile`: the claimed identity, the challenge and its timer. */
  function Claim(c: Conn, publicKey: string, name: string, bio: Option<string>, nonce: string, timer: nat): Conn {
    c.(publicKey := Some(publicKey), name := Some(name), bio := bio, authNonce := Some(nonce), authTimer := Some(timer))
  }

  /** The signature check of a response to a pending claim. */
  predicate Accepts(verify: (string, string, string) -> bool, c: Conn, signature: string)
    requires PendingClaim(c)
  {
    verify(ChallengeMessage(c.authNonce.value, c.publicKey.value), signature, c.publicKey.value)
  }

  /**
   * `auth:response` on a record, given the signature check's outcome: no change
   * without a pending claim; key, name, nonce and timer cleared on a bad signature;
   * authenticated, with nonce and timer cleared, on a good one.
   */
  function Respond(c: Conn, valid: bool): Conn {
    if !PendingClaim(c) then c
    else if !valid then c.(publicKey := None, name := None, authNonce := None, authTimer := None)
    else c.(authenticated := true, authNonce := None, authTimer := None)
  }

  /** The profile an accepted response stores and announces. */
  function VerifiedProfile(c: Conn, now: int): UserProfile {
    UserProfile(KeyOf(c), c.name.GetOr("Unknown"), c.bio, Some(now))
  }

  /** The armed timers after `clearTimeout` of the record's timer, if it has one. */
  function ClearTimer(timers: map<nat, Socket>, t: Option<nat>): map<nat, Socket> {
    if t.Some? then timers - {t.value} else timers
  }

  /**
   * A claim with a non-empty key is pending, the signature it needs is one over its
   * own nonce and key, and accepting it yields an authenticated member with the
   * claimed key, name and bio, no nonce, no timer and the same joined channels.
   */
  lemma ClaimThenAccept(c: Conn, publicKey: string, name: string, bio: Option<string>, nonce: string, timer: nat,
                        verify: (string, string, string) -> bool, signature: string)
    requires ConnOk(c) && !c.authenticated && publicKey != "" && nonce != ""
    ensures var claimed := Claim(c, publicKey, name, bio, nonce, timer);
      && ConnOk(claimed) && PendingClaim(claimed)
      && (Accepts(verify, claimed, signature) <==> verify(ChallengeMessage(nonce, publicKey), signature, publicKey))
      && var r := Respond(claimed, true);
      && ConnOk(r) && IsMember(r) && KeyOf(r) == publicKey && r.name == Some(name) && r.bio == bio
      && r.authNonce.None? && r.authTimer.None? && r.joinedChannels == c.joinedChannels
      && VerifiedProfile(r, 0).name == name
  {
  }

  /** A claim with the empty key is never pending: every response leaves the record as it is. */
  lemma EmptyKeyNeverAuthenticates(c: Conn, name: string, bio: Option<string>, nonce: string, timer: nat, valid: bool)
    ensures Respond(Claim(c, "", name, bio, nonce, timer), valid) == Claim(c, "", name, bio, nonce, timer)
  {
  }

  /**
   * A rejected response leaves an unauthenticated record with no key, no name and no
   * pending claim, keeps its bio, and every later response changes nothing until a
   * new claim.
   */
  lemma RejectionNeedsNewClaim(c: Conn, valid: bool)
    requires PendingClaim(c) && !c.authenticated
    ensures var r := Respond(c, false);
      && !r.authenticated && !PendingClaim(r) && r.publicKey.None? && r.name.None? && r.bio == c.bio
      && r.authTimer.None? && Respond(r, valid) == r
  {
  }

  /** An authenticated record has no pending claim, so a further response changes nothing. */
  lemma AuthenticatedIsSettled(c: Conn, valid: bool)
    requires ConnOk(c) && c.authenticated
    ensures !PendingClaim(c) && Respond(c, valid) == c
  {
  }

  /** Responses keep the record invariant, and only an accepted response to a pending claim authenticates. */
  lemma RespondKeepsOk(c: Conn, valid: bool)
    requires ConnOk(c)
    ensures ConnOk(Respond(c, valid))
    ensures Respond(c, valid).authenticated && !c.authenticated ==> PendingClaim(c) && valid
  {
  }
}
