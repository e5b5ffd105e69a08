/**
 * The WebSocket entry points: a new socket gets a record; each message passes the
 * record's rate limiter, is parsed, passes the authentication gate and goes to its
 * handler; a closing socket's record is dropped, with its voice seat and a
 * `member:leave` announcement.
 */
module Dispatcher {
  import opened Wrappers
  import opened Protocol
  import opened Hex
  import opened Config
  import opened Invites
  import opened Connections
  import opened Tables
  import opened Server
  import RateLimit
  import Rooms
  import Auth
  import AuthHandlers
  import ChatHandlers
  import AdminHandlers
  import VoiceHandlers

  /** What the handlers may change beside the records and the outbox. */
  datatype Stored = Stored(realm: seq<RealmRow>, channels: seq<ChannelRow>, messages: seq<MessageRow>,
                           attachments: seq<AttachmentRow>, invites: seq<InviteRow>,
                           profiles: OrderedMaps.OMap<string, ProfileRow>,
                           rooms: OrderedMaps.OMap<string, Rooms.Room>, closed: set<string>, timers: map<nat, Socket>)

  ghost function StoredOf(s: Server): Stored
    reads s, s.db, s.voice
  {
    Stored(s.db.realm, s.db.channels, s.db.messages, s.db.attachments, s.db.invites, s.db.profiles,
           s.voice.rooms, s.voice.closed, s.timers)
  }

  /** The part of the store every member sees: the realm, its channels and history, the invites and the voice rooms. */
  ghost predicate SameShared(a: Stored, b: Stored) {
    a.realm == b.realm && a.channels == b.channels && a.messages == b.messages && a.attachments == b.attachments
    && a.invites == b.invites && a.rooms == b.rooms && a.closed == b.closed
  }

  /** What one event may draw is fresh: a nonce of 32 bytes, an unused timer id, an unused uuid, new engine handles. */
  ghost predicate Ready(s: Server, d: Draw, e: Engine)
    reads s, s.db, s.voice
  {
    |d.nonceBytes| == 32 && d.timer !in s.timers && d.uuid !in InviteIds(s.db.invites) && EngineFresh(s.voice, e)
  }

  /** The authentication gate: a record that has not authenticated may only send `user:profile` and `auth:response`. */
  predicate Gated(c: Option<Conn>, cmd: Command) {
    c.Some? && !c.value.authenticated && !cmd.UserProfileClaim? && !cmd.AuthResponse?
  }

  /** The record after its limiter's `check()` at `now`. */
  function Checked(c: Conn, now: int): Conn {
    c.(stamps := RateLimit.After(c.stamps, now, MaxRequests, WindowMs))
  }

  /** `handleConnection`: a record for the new socket. */
  method Connect(s: Server, ws: Socket)
    requires s.Valid()
    modifies s.reg
    ensures s.Valid()
    ensures s.reg.conns == old(s.reg.conns).Put(ws, NewConn(ws)) && s.reg.open == old(s.reg.open) + {ws}
    ensures s.reg.outbox == old(s.reg.outbox)
  {
    var c := s.reg.AddConnection(ws);
  }

  /**
   * The `message` listener. The limiter is checked first, and a refused message gets
   * `RATE_LIMITED` and nothing else; a message that does not parse, or whose handler
   * throws, gets `INVALID_MESSAGE`. Whatever a record that has not authenticated
   * sends, the realm, its channels, history and invites and the voice rooms stay as
   * they are.
   */
  method OnMessage(s: Server, ws: Socket, cmd: Option<Command>, d: Draw, e: Engine)
    requires s.Valid() && s.reg.Get(ws).Some? && Ready(s, d, e)
    modifies s.reg`conns, s.reg`outbox, s.db`realm, s.db`invites, s.db`channels, s.db`messages,
             s.db`attachments, s.db`profiles, s.voice`rooms, s.voice`owner, s.voice`closed, s`timers
    ensures s.Valid()
    ensures var c := old(s.reg.Get(ws)).value;
      !RateLimit.Admits(c.stamps, d.now, MaxRequests, WindowMs) ==>
        s.reg.conns == old(s.reg.conns).Put(ws, Checked(c, d.now))
        && s.reg.outbox == old(s.reg.outbox) + ErrorTo(s.reg.open, ws, RateLimited)
        && StoredOf(s) == old(StoredOf(s))
    ensures var c := old(s.reg.Get(ws)).value;
      RateLimit.Admits(c.stamps, d.now, MaxRequests, WindowMs) && cmd.None? ==>
        s.reg.conns == old(s.reg.conns).Put(ws, Checked(c, d.now))
        && s.reg.outbox == old(s.reg.outbox) + ErrorTo(s.reg.open, ws, InvalidMessage)
        && StoredOf(s) == old(StoredOf(s))
    ensures var c := old(s.reg.Get(ws)).value;
      RateLimit.Admits(c.stamps, d.now, MaxRequests, WindowMs) && cmd.Some? && Gated(Some(c), cmd.value) ==>
        s.reg.conns == old(s.reg.conns).Put(ws, Checked(c, d.now))
        && s.reg.outbox == old(s.reg.outbox) + ErrorTo(s.reg.open, ws, NotAuthenticated)
        && StoredOf(s) == old(StoredOf(s))
    ensures !old(s.reg.Get(ws)).value.authenticated ==> SameShared(StoredOf(s), old(StoredOf(s)))
  {
    var c := s.reg.Get(ws).value;
    var allowed := RateLimit.Admits(c.stamps, d.now, MaxRequests, WindowMs);
    RateLimit.CountBounded(c.stamps, d.now, MaxRequests, WindowMs);
    s.reg.Update(Checked(c, d.now));
    if !allowed {
      Tell(s, ws, RealmError(RateLimited));
    } else if cmd.None? {
      Tell(s, ws, RealmError(InvalidMessage));
    } else {
      var threw := HandleMessage(s, ws, cmd.value, d, e);
      if threw {
        Tell(s, ws, RealmError(InvalidMessage));
      }
    }
  }

  /**
   * `handleMessage`: the authentication gate, then the handler for the command's
   * type; a type the dispatcher does not name gets `UNKNOWN_TYPE`.
   */
  method HandleMessage(s: Server, ws: Socket, cmd: Command, d: Draw, e: Engine) returns (threw: bool)
    requires s.Valid() && Ready(s, d, e)
    modifies s.reg`conns, s.reg`outbox, s.db`realm, s.db`invites, s.db`channels, s.db`messages,
             s.db`attachments, s.db`profiles, s.voice`rooms, s.voice`owner, s.voice`closed, s`timers
    ensures s.Valid()
    ensures Gated(old(s.reg.Get(ws)), cmd) ==>
      !threw && s.reg.conns == old(s.reg.conns) && StoredOf(s) == old(StoredOf(s))
      && s.reg.outbox == old(s.reg.outbox) + ErrorTo(s.reg.open, ws, NotAuthenticated)
    ensures !Gated(old(s.reg.Get(ws)), cmd) && cmd.Other? ==>
      !threw && s.reg.conns == old(s.reg.conns) && StoredOf(s) == old(StoredOf(s))
      && s.reg.outbox == old(s.reg.outbox) + ErrorTo(s.reg.open, ws, UnknownType)
    ensures old(s.reg.Get(ws)).Some? && !old(s.reg.Get(ws)).value.authenticated ==>
      SameShared(StoredOf(s), old(StoredOf(s)))
  {
    threw := false;
    if Gated(s.reg.Get(ws), cmd) {
      Tell(s, ws, RealmError(NotAuthenticated));
    } else if cmd.UserProfileClaim? {
      AuthHandlers.HandleUserProfile(s, ws, cmd.publicKey, cmd.name, cmd.bio, d.now, d.nonceBytes, d.timer);
    } else if cmd.AuthResponse? {
      AuthHandlers.HandleAuthResponse(s, ws, cmd.signature, d.now);
    } else if cmd.Other? {
      Tell(s, ws, RealmError(UnknownType));
    } else if cmd.VoiceJoin? || cmd.VoiceLeave? || cmd.VoiceCreateTransport? || cmd.VoiceConnectTransport?
           || cmd.VoiceProduce? || cmd.VoiceConsume? || cmd.VoiceCloseProducer? {
      RouteVoice(s, ws, cmd, e);
    } else {
      threw := RouteRealm(s, ws, cmd, d);
    }
  }

  /** The cases of `handleMessage` for the voice commands. */
  method RouteVoice(s: Server, ws: Socket, cmd: Command, e: Engine)
    requires s.Valid() && EngineFresh(s.voice, e)
    modifies s.reg`conns, s.reg`outbox, s.voice`rooms, s.voice`owner, s.voice`closed
    ensures s.Valid()
  {
    match cmd {
      case VoiceJoin(channelId) => VoiceHandlers.HandleVoiceJoin(s, ws, channelId, e);
      case VoiceLeave(channelId) => VoiceHandlers.HandleVoiceLeave(s, ws, channelId);
      case VoiceCreateTransport(channelId, direction) =>
        VoiceHandlers.HandleCreateTransport(s, ws, channelId, direction, e);
      case VoiceConnectTransport(channelId, transportId) =>
        VoiceHandlers.HandleConnectTransport(s, ws, channelId, transportId, e);
      case VoiceProduce(channelId, kind, producerKind) =>
        VoiceHandlers.HandleProduce(s, ws, channelId, kind, producerKind, e);
      case VoiceConsume(channelId, producerId) => VoiceHandlers.HandleConsume(s, ws, channelId, producerId, e);
      case VoiceCloseProducer(channelId, producerId) =>
        VoiceHandlers.HandleCloseProducer(s, ws, channelId, producerId);
      case _ =>
    }
  }

  /** The cases of `handleMessage` for the realm, channel, message and invite commands. */
  method RouteRealm(s: Server, ws: Socket, cmd: Command, d: Draw) returns (threw: bool)
    requires s.Valid() && d.uuid !in InviteIds(s.db.invites)
    modifies s.reg`conns, s.reg`outbox, s.db`realm, s.db`invites, s.db`channels, s.db`messages,
             s.db`attachments, s.db`profiles
    ensures s.Valid()
  {
    if cmd.RealmJoin? || cmd.ChannelJoin? || cmd.ChannelMessage? || cmd.ChannelTyping? || cmd.ChannelFetchHistory?
       || cmd.DmOpen? {
      threw := RouteChat(s, ws, cmd, d);
    } else {
      threw := RouteAdmin(s, ws, cmd, d);
    }
  }

  /** The cases of `handleMessage` a member uses to read and write the realm's channels. */
  method RouteChat(s: Server, ws: Socket, cmd: Command, d: Draw) returns (threw: bool)
    requires s.Valid()
    modifies s.reg`conns, s.reg`outbox, s.db`realm, s.db`invites, s.db`channels, s.db`messages, s.db`profiles
    ensures s.Valid()
  {
    threw := false;
    match cmd {
      case RealmJoin => ChatHandlers.HandleRealmJoin(s, ws, d);
      case ChannelJoin(channelId) => ChatHandlers.HandleChannelJoin(s, ws, channelId);
      case ChannelMessage(channelId, encrypted, signature, nonce, publicKey, profile) =>
        threw := ChatHandlers.HandleChannelMessage(s, ws, channelId, encrypted, signature, nonce, publicKey, profile, d);
      case ChannelTyping(channelId, publicKey) => ChatHandlers.HandleTyping(s, ws, channelId, publicKey);
      case ChannelFetchHistory(channelId, before) => ChatHandlers.HandleFetchHistory(s, ws, channelId, before);
      case DmOpen(targetPublicKey) => threw := ChatHandlers.HandleDmOpen(s, ws, targetPublicKey, d);
      case _ =>
    }
  }

  /** The cases of `handleMessage` for the administrators' commands. */
  method RouteAdmin(s: Server, ws: Socket, cmd: Command, d: Draw) returns (threw: bool)
    requires s.Valid() && d.uuid !in InviteIds(s.db.invites)
    modifies s.reg`outbox, s.db`realm, s.db`invites, s.db`channels, s.db`messages, s.db`attachments
    ensures s.Valid()
  {
    threw := false;
    match cmd {
      case RealmUpdate(name, description, allow, ret, fret) =>
        AdminHandlers.HandleRealmUpdate(s, ws, name, description, allow, ret, fret, d);
      case RealmSetPasswordVerify(ciphertext, nonce) =>
        AdminHandlers.HandleRealmSetPasswordVerify(s, ws, ciphertext, nonce, d);
      case ChannelCreate(name, kind, encrypted, verify, verifyNonce) =>
        threw := AdminHandlers.HandleChannelCreate(s, ws, name, kind, encrypted, verify, verifyNonce, d);
      case ChannelDelete(channelId) => AdminHandlers.HandleChannelDelete(s, ws, channelId);
      case ChannelSetPasswordVerify(channelId, ciphertext, nonce) =>
        AdminHandlers.HandleChannelSetPasswordVerify(s, ws, channelId, ciphertext, nonce);
      case InviteRegenerate(inviteId) => AdminHandlers.HandleInviteRegenerate(s, ws, inviteId, d);
      case _ =>
    }
  }

  /**
   * The state after record `c` of socket `ws` was dropped: with a key, it left the
   * voice room its record names (if any), and every remaining member was told it
   * left.
   */
  ghost predicate Departed(s: Server, rooms: OrderedMaps.OMap<string, Rooms.Room>, closed: set<string>,
                           outbox: seq<(Socket, Event)>, c: Conn)
    reads s, s.reg, s.voice
  {
    var key := c.publicKey.GetOr("");
    && s.reg.Valid() && Rooms.Shaped(rooms)
    && (if Truthy(c.voiceChannelId) then
          var vc := c.voiceChannelId.value;
          && (vc !in rooms.vals ==> s.voice.rooms == rooms && s.voice.closed == closed)
          && (vc in rooms.vals ==>
                s.voice.rooms == Rooms.RoomsAfterRemove(rooms, vc, key)
                && s.voice.closed == Rooms.ClosedAfterRemove(rooms, closed, vc, key))
          && s.reg.outbox == outbox
             + DeliveriesEach(AuthenticatedConnections(s.reg.All()), None, s.reg.open,
                              VoiceHandlers.LeaveEvents(vc, key, VoiceHandlers.Held(rooms, vc, key)))
             + Deliveries(AuthenticatedConnections(s.reg.All()), Some(c.ws), s.reg.open, MemberLeave(key))
        else
          s.voice.rooms == rooms && s.voice.closed == closed
          && s.reg.outbox == outbox
             + Deliveries(AuthenticatedConnections(s.reg.All()), Some(c.ws), s.reg.open, MemberLeave(key)))
  }

  /**
   * The `close` listener: the record is removed and its pending authentication
   * timer disarmed; a record with a key also leaves its voice room and its departure
   * is announced.
   */
  method OnClose(s: Server, ws: Socket)
    requires s.Valid()
    modifies s.reg`conns, s.reg`open, s.reg`outbox, s.voice`rooms, s.voice`closed, s`timers
    ensures s.Valid()
    ensures s.reg.conns == old(s.reg.conns).Remove(ws) && s.reg.open == old(s.reg.open) - {ws}
    ensures s.timers == (if old(s.reg.Get(ws)).Some? then Auth.ClearTimer(old(s.timers), old(s.reg.Get(ws)).value.authTimer)
                         else old(s.timers))
    ensures !HasIdentity(old(s.reg.Get(ws))) ==>
      s.reg.outbox == old(s.reg.outbox) && s.voice.rooms == old(s.voice.rooms) && s.voice.closed == old(s.voice.closed)
    ensures HasIdentity(old(s.reg.Get(ws))) ==>
      Departed(s, old(s.voice.rooms), old(s.voice.closed), old(s.reg.outbox), old(s.reg.Get(ws)).value)
  {
    s.reg.CloseSocket(ws);
    var removed := s.reg.RemoveConnection(ws);
    if removed.Some? {
      s.timers := Auth.ClearTimer(s.timers, removed.value.authTimer);
      if Truthy(removed.value.publicKey) {
        Depart(s, removed.value);
      }
    }
  }

  /** The departure of a record with a key. */
  method Depart(s: Server, c: Conn)
    requires s.Valid() && Truthy(c.publicKey)
    modifies s.reg`outbox, s.voice`rooms, s.voice`closed
    ensures s.Valid()
    ensures Departed(s, old(s.voice.rooms), old(s.voice.closed), old(s.reg.outbox), c)
  {
    Rooms.OkShaped(s.voice.rooms, s.voice.owner, s.voice.closed);
    if Truthy(c.voiceChannelId) {
      ghost var all := s.reg.All();
      VoiceHandlers.LeaveVoice(s, c.publicKey.value, c.voiceChannelId.value);
      assert s.reg.All() == all;
      Announce(s, MemberLeave(c.publicKey.value), Some(c.ws));
    } else {
      Announce(s, MemberLeave(c.publicKey.value), Some(c.ws));
    }
  }
}
