/**
 * The server process's state as the WebSocket handlers see it: the connection
 * registry, the database, the voice rooms, the configuration, the signature check
 * and the pending authentication timers. What one event draws from the clock, the
 * uuid generator, the random source and the media engine is a parameter.
 */
module Server {
  import opened Wrappers
  import opened Protocol
  import opened Config
  import opened Hex
  import opened Connections
  import opened Tables
  import opened OrderedMaps
  import Profiles
  import Rooms

  /**
   * What handling one event may draw from outside: the clock, two uuids for the
   * handler's own inserts, the three `ensureRealm` would use on an empty database,
   * 32 random bytes for a challenge and the id of a new timer.
   */
  datatype Draw = Draw(now: int, uuid: string, uuid2: string, realmId: string, inviteId: string,
                       inviteKey: string, nonceBytes: seq<Byte>, timer: nat)

  /**
   * The media engine's answers within one event: whether it started, and the handle
   * of each object it would create (`None` where the call throws); whether it can
   * serve a consumer for the requested producer, and whether connecting a transport
   * succeeds.
   */
  datatype Engine = Engine(sfuReady: bool, router: Option<string>, transport: Option<string>,
                           connected: bool, producer: Option<string>, consumer: Option<string>,
                           canConsume: bool)

  /** `verify(message, fromHex(signature), fromBase58(publicKey))`, false where decoding throws. */
  type Verifier = (string, string, string) -> bool

  class Server {
    const reg: Registry
    const db: Database
    const voice: Rooms.VoiceRooms
    const cfg: ServerConfig
    const verify: Verifier
    /** The armed authentication timers: timer id to the socket whose record armed it. */
    var timers: map<nat, Socket>

    ghost predicate Valid()
      reads this, reg, db, voice
    {
      reg.Valid() && db.Valid() && voice.Valid()
    }

    /** A process that has just started: no connections, an empty database and no rooms. */
    constructor (cfg: ServerConfig, verify: Verifier)
      ensures Valid() && this.cfg == cfg && this.verify == verify && timers == map[]
      ensures reg.conns.keys == [] && reg.open == {} && reg.outbox == []
      ensures voice.rooms.keys == [] && db.channels == [] && db.messages == []
    {
      reg := new Registry();
      db := new Database();
      voice := new Rooms.VoiceRooms();
      this.cfg := cfg;
      this.verify := verify;
      timers := map[];
    }
  }

  /** The engine's handles are ones it has never handed out. */
  ghost predicate EngineFresh(voice: Rooms.VoiceRooms, e: Engine)
    reads voice
  {
    && (e.router.Some? ==> voice.Fresh(e.router.value))
    && (e.transport.Some? ==> voice.Fresh(e.transport.value))
    && (e.producer.Some? ==> voice.Fresh(e.producer.value))
    && (e.consumer.Some? ==> voice.Fresh(e.consumer.value))
  }

  /** `send(ws, { type: "realm:error", payload: { code } })`: what it writes. */
  function ErrorTo(open: set<Socket>, ws: Socket, code: ErrorCode): seq<(Socket, Event)> {
    Unicast(open, ws, RealmError(code))
  }

  /** `isAdmin(conn.publicKey)` behind the handlers' `!conn?.publicKey ||` guard. */
  predicate IsAdminConn(cfg: ServerConfig, c: Option<Conn>) {
    c.Some? && Truthy(c.value.publicKey) && IsAdmin(cfg, c.value.publicKey.value)
  }

  /** `conn?.publicKey`: a registered record with a non-empty key. */
  predicate HasIdentity(c: Option<Conn>) {
    c.Some? && Truthy(c.value.publicKey)
  }

  // ---------------------------------------------------------------------------
  // The registry's and the database's operations, as steps of the whole server

  /** `send(ws, e)`. */
  method Tell(s: Server, ws: Socket, e: Event)
    requires s.Valid()
    modifies s.reg`outbox
    ensures s.Valid()
    ensures s.reg.outbox == old(s.reg.outbox) + Unicast(s.reg.open, ws, e)
  {
    s.reg.Send(ws, e);
  }

  /** `broadcastToAll(e, exclude)`. */
  method Announce(s: Server, e: Event, exclude: Option<Socket>)
    requires s.Valid()
    modifies s.reg`outbox
    ensures s.Valid()
    ensures s.reg.outbox == old(s.reg.outbox) + Deliveries(AuthenticatedConnections(s.reg.All()), exclude, s.reg.open, e)
  {
    s.reg.BroadcastToAll(e, exclude);
  }

  /** `broadcastToChannel(channelId, e, exclude)`. */
  method ToChannel(s: Server, channelId: string, e: Event, exclude: Option<Socket>)
    requires s.Valid()
    modifies s.reg`outbox
    ensures s.Valid()
    ensures s.reg.outbox == old(s.reg.outbox)
      + Deliveries(ChannelConnections(s.reg.All(), channelId), exclude, s.reg.open, e)
  {
    s.reg.BroadcastToChannel(channelId, e, exclude);
  }

  /** Rewrite a registered record. */
  method Rewrite(s: Server, c: Conn)
    requires s.Valid() && c.ws in s.reg.conns.vals && ConnOk(c)
    modifies s.reg`conns
    ensures s.Valid()
    ensures s.reg.conns == old(s.reg.conns).Put(c.ws, c)
  {
    s.reg.Update(c);
  }

  /** `upsertProfile(p)` at time `now`. */
  method RefreshProfile(s: Server, p: UserProfile, now: int)
    requires s.Valid()
    modifies s.db`profiles
    ensures s.Valid()
    ensures s.db.profiles == Profiles.Upserted(old(s.db.profiles), p, now)
  {
    Profiles.UpsertProfile(s.db, p, now);
  }
}
