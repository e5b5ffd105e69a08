/**
 * The handlers of the handshake: `user:profile`, `auth:response` and the
 * authentication timer a claim arms.
 */
module AuthHandlers {
  import opened Wrappers
  import opened Protocol
  import opened Hex
  import opened Connections
  import opened Profiles
  import opened Auth
  import opened Server
  import opened OrderedMaps
  import opened Tables

  /**
   * `handleUserProfile`. An authenticated record may rename itself under its own key
   * but not change key; an unauthenticated one claims an identity.
   */
  method HandleUserProfile(s: Server, ws: Socket, publicKey: string, name: string, bio: Option<string>,
                           now: int, nonceBytes: seq<Byte>, timer: nat)
    requires s.Valid() && |nonceBytes| == 32 && timer !in s.timers
    modifies s.reg`conns, s.reg`outbox, s.db`profiles, s`timers
    ensures s.Valid()
    ensures old(s.reg.Get(ws)).None? ==>
      s.reg.conns == old(s.reg.conns) && s.reg.outbox == old(s.reg.outbox)
      && s.db.profiles == old(s.db.profiles) && s.timers == old(s.timers)
    ensures old(s.reg.Get(ws)).Some? && old(s.reg.Get(ws)).value.authenticated ==>
      s.timers == old(s.timers) && ProfileUpdated(s, old(s.reg.conns), old(s.reg.outbox), old(s.db.profiles),
                                                  old(s.reg.Get(ws)).value, publicKey, name, bio, now)
    ensures old(s.reg.Get(ws)).Some? && !old(s.reg.Get(ws)).value.authenticated ==>
      s.db.profiles == old(s.db.profiles)
      && Claimed(s, old(s.reg.conns), old(s.reg.outbox), old(s.timers), old(s.reg.Get(ws)).value,
                 publicKey, name, bio, ToHex(nonceBytes), timer)
  {
    var conn := s.reg.Get(ws);
    if conn.Some? {
      if conn.value.authenticated {
        UpdateOwnProfile(s, conn.value, publicKey, name, bio, now);
      } else {
        ClaimIdentity(s, conn.value, publicKey, name, bio, ToHex(nonceBytes), timer);
      }
    }
  }

  /**
   * The state after an authenticated record sent `user:profile`: under another key,
   * `IDENTITY_MISMATCH` and nothing else; under its own key, the new name on the
   * record (the bio only in the stored profile), the profile stored as seen now and
   * announced to every other member.
   */
  ghost predicate ProfileUpdated(s: Server, conns: OMap<Socket, Conn>, outbox: seq<(Socket, Event)>,
                                 profiles: OMap<string, ProfileRow>, c: Conn,
                                 publicKey: string, name: string, bio: Option<string>, now: int)
    reads s, s.reg, s.db
    requires s.reg.Valid() && conns.Valid() && ProfilesKeyed(profiles)
  {
    var profile := UserProfile(publicKey, name, bio, Some(now));
    if c.publicKey != Some(publicKey) then
      s.reg.conns == conns && s.db.profiles == profiles
      && s.reg.outbox == outbox + ErrorTo(s.reg.open, c.ws, IdentityMismatch)
    else
      s.reg.conns == conns.Put(c.ws, c.(name := Some(name)))
      && s.db.profiles == Upserted(profiles, profile, now)
      && s.reg.outbox == outbox + Deliveries(AuthenticatedConnections(s.reg.All()), Some(c.ws), s.reg.open, MemberJoin(profile))
  }

  /** The authenticated branch of `handleUserProfile`. */
  method UpdateOwnProfile(s: Server, c: Conn, publicKey: string, name: string, bio: Option<string>, now: int)
    requires s.Valid() && s.reg.Get(c.ws) == Some(c) && c.authenticated
    modifies s.reg`conns, s.reg`outbox, s.db`profiles
    ensures s.Valid()
    ensures ProfileUpdated(s, old(s.reg.conns), old(s.reg.outbox), old(s.db.profiles), c, publicKey, name, bio, now)
  {
    if c.publicKey != Some(publicKey) {
      Tell(s, c.ws, RealmError(IdentityMismatch));
    } else {
      s.reg.Update(c.(name := Some(name)));
      var profile := UserProfile(publicKey, name, bio, Some(now));
      UpsertProfile(s.db, profile, now);
      Announce(s, MemberJoin(profile), Some(c.ws));
    }
  }

  /**
   * The state after an unauthenticated record claimed an identity: the claim on the
   * record, the challenge sent to it, and its new timer armed beside every timer
   * already armed (an earlier claim's timer is not disarmed).
   */
  ghost predicate Claimed(s: Server, conns: OMap<Socket, Conn>, outbox: seq<(Socket, Event)>,
                          timers: map<nat, Socket>, c: Conn,
                          publicKey: string, name: string, bio: Option<string>, nonce: string, timer: nat)
    reads s, s.reg
    requires conns.Valid()
  {
    && s.reg.conns == conns.Put(c.ws, Claim(c, publicKey, name, bio, nonce, timer))
    && s.reg.outbox == outbox + Unicast(s.reg.open, c.ws, AuthChallenge(nonce))
    && s.timers == timers[timer := c.ws] && timers.Keys <= s.timers.Keys
  }

  /** The unauthenticated branch of `handleUserProfile`, with the nonce `toHex(randomBytes(32))`. */
  method ClaimIdentity(s: Server, c: Conn, publicKey: string, name: string, bio: Option<string>,
                       nonce: string, timer: nat)
    requires s.Valid() && s.reg.Get(c.ws) == Some(c) && !c.authenticated && timer !in s.timers
    modifies s.reg`conns, s.reg`outbox, s`timers
    ensures s.Valid()
    ensures Claimed(s, old(s.reg.conns), old(s.reg.outbox), old(s.timers), c, publicKey, name, bio, nonce, timer)
  {
    s.reg.Update(Claim(c, publicKey, name, bio, nonce, timer));
    Tell(s, c.ws, AuthChallenge(nonce));
    s.timers := s.timers[timer := c.ws];
  }

  /**
   * `handleAuthResponse`. Without a pending claim the caller gets `AUTH_FAILED` and
   * nothing changes. A signature that does not verify over the claim's challenge gets
   * `AUTH_FAILED` and wipes the claim and its timer. A valid one authenticates the
   * record, disarms its timer, stores the profile, confirms to the caller and
   * announces the member to everyone else.
   */
  method HandleAuthResponse(s: Server, ws: Socket, signature: string, now: int)
    requires s.Valid()
    modifies s.reg`conns, s.reg`outbox, s.db`profiles, s`timers
    ensures s.Valid()
    ensures old(s.reg.Get(ws)).None? ==>
      s.reg.conns == old(s.reg.conns) && s.reg.outbox == old(s.reg.outbox)
      && s.db.profiles == old(s.db.profiles) && s.timers == old(s.timers)
    ensures old(s.reg.Get(ws)).Some? && !PendingClaim(old(s.reg.Get(ws)).value) ==>
      s.reg.conns == old(s.reg.conns) && s.db.profiles == old(s.db.profiles) && s.timers == old(s.timers)
      && s.reg.outbox == old(s.reg.outbox) + ErrorTo(s.reg.open, ws, AuthFailed)
    ensures old(s.reg.Get(ws)).Some? && PendingClaim(old(s.reg.Get(ws)).value) ==> (
      var c := old(s.reg.Get(ws)).value;
      var valid := Accepts(s.verify, c, signature);
      && s.reg.conns == old(s.reg.conns).Put(ws, Respond(c, valid))
      && s.timers == ClearTimer(old(s.timers), c.authTimer)
      && (!valid ==>
            s.db.profiles == old(s.db.profiles)
            && s.reg.outbox == old(s.reg.outbox) + ErrorTo(s.reg.open, ws, AuthFailed))
      && (valid ==>
            var profile := VerifiedProfile(c, now);
            && s.db.profiles == Upserted(old(s.db.profiles), profile, now)
            && s.reg.outbox == old(s.reg.outbox) + Unicast(s.reg.open, ws, AuthVerified)
               + Deliveries(AuthenticatedConnections(s.reg.All()), Some(ws), s.reg.open, MemberJoin(profile))))
  {
    var conn := s.reg.Get(ws);
    if conn.Some? {
      var c := conn.value;
      if !PendingClaim(c) {
        Tell(s, ws, RealmError(AuthFailed));
      } else {
        var valid := s.verify(ChallengeMessage(c.authNonce.value, c.publicKey.value), signature, c.publicKey.value);
        if !valid {
          Reject(s, c);
        } else {
          Accept(s, c, now);
        }
      }
    }
  }

  /** A response whose signature does not verify: `AUTH_FAILED`, and the claim and its timer wiped. */
  method Reject(s: Server, c: Conn)
    requires s.Valid() && s.reg.Get(c.ws) == Some(c) && PendingClaim(c)
    modifies s.reg`conns, s.reg`outbox, s`timers
    ensures s.Valid()
    ensures s.reg.conns == old(s.reg.conns).Put(c.ws, Respond(c, false))
    ensures s.timers == ClearTimer(old(s.timers), c.authTimer)
    ensures s.reg.outbox == old(s.reg.outbox) + ErrorTo(s.reg.open, c.ws, AuthFailed)
  {
    Tell(s, c.ws, RealmError(AuthFailed));
    RespondKeepsOk(c, false);
    Rewrite(s, Respond(c, false));
    s.timers := ClearTimer(s.timers, c.authTimer);
  }

  /**
   * A response whose signature verifies: the record authenticated, its timer
   * disarmed, the profile stored, the caller confirmed and the member announced.
   */
  method Accept(s: Server, c: Conn, now: int)
    requires s.Valid() && s.reg.Get(c.ws) == Some(c) && PendingClaim(c)
    modifies s.reg`conns, s.reg`outbox, s.db`profiles, s`timers
    ensures s.Valid()
    ensures s.reg.conns == old(s.reg.conns).Put(c.ws, Respond(c, true))
    ensures s.timers == ClearTimer(old(s.timers), c.authTimer)
    ensures s.db.profiles == Upserted(old(s.db.profiles), VerifiedProfile(c, now), now)
    ensures s.reg.outbox == old(s.reg.outbox) + Unicast(s.reg.open, c.ws, AuthVerified)
      + Deliveries(AuthenticatedConnections(s.reg.All()), Some(c.ws), s.reg.open, MemberJoin(VerifiedProfile(c, now)))
  {
    RespondKeepsOk(c, true);
    Rewrite(s, Respond(c, true));
    s.timers := ClearTimer(s.timers, c.authTimer);
    RefreshProfile(s, VerifiedProfile(c, now), now);
    Tell(s, c.ws, AuthVerified);
    Announce(s, MemberJoin(VerifiedProfile(c, now)), Some(c.ws));
  }

  /**
   * The authentication timer `timer` fires: it is disarmed, and if the socket that
   * armed it still has an unauthenticated record, that socket is sent `AUTH_TIMEOUT`
   * and closed. An earlier claim's timer fires on its own schedule even after a
   * later claim re-armed the record.
   */
  method OnAuthTimer(s: Server, timer: nat)
    requires s.Valid() && timer in s.timers
    modifies s.reg`outbox, s.reg`open, s`timers
    ensures s.Valid()
    ensures s.timers == old(s.timers) - {timer}
    ensures var ws := old(s.timers[timer]);
      var c := old(s.reg.Get(ws));
      if c.Some? && !c.value.authenticated then
        s.reg.outbox == old(s.reg.outbox) + ErrorTo(old(s.reg.open), ws, AuthTimeout)
        && s.reg.open == old(s.reg.open) - {ws}
      else
        s.reg.outbox == old(s.reg.outbox) && s.reg.open == old(s.reg.open)
  {
    var ws := s.timers[timer];
    s.timers := s.timers - {timer};
    var conn := s.reg.Get(ws);
    if conn.Some? && !conn.value.authenticated {
      Tell(s, ws, RealmError(AuthTimeout));
      s.reg.CloseSocket(ws);
    }
  }
}
