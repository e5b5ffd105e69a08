/**
 * The voice handlers: `voice:join`, `voice:leave`, `voice:create-transport`,
 * `voice:connect-transport`, `voice:produce`, `voice:consume` and
 * `voice:close-producer`. Each does nothing for a record without a key. What the
 * media engine answers within the event comes in an `Engine` value.
 */
module VoiceHandlers {
  import opened Wrappers
  import opened Protocol
  import opened OrderedMaps
  import opened Connections
  import opened Server
  import opened Rooms

  // ---------------------------------------------------------------------------
  // voice:join

  /** The voice cap, tested on the room as it is before the join (the joiner counted if already in it). */
  predicate RoomFull(cfg: Config.ServerConfig, rooms: OMap<string, Room>, channelId: string) {
    cfg.maxVoiceParticipants > 0
    && (if channelId in rooms.vals then rooms.vals[channelId].participants.Size() else 0) >= cfg.maxVoiceParticipants
  }

  /** The `voice:participant:joined` events for every participant among `keys` but `self`, in order. */
  function Roster(parts: OMap<string, Participant>, keys: seq<string>, channelId: string, self: string): seq<Event>
    requires forall k :: k in keys ==> k in parts.vals
  {
    if keys == [] then []
    else
      var p := parts.vals[keys[0]];
      (if keys[0] == self then [] else [VoiceParticipantJoined(channelId, p.publicKey, p.name)])
      + Roster(parts, keys[1..], channelId, self)
  }

  /**
   * The roster announces exactly the other participants, each under its own key and
   * name, and never the joiner.
   */
  lemma {:induction false} RosterExact(parts: OMap<string, Participant>, keys: seq<string>, channelId: string,
                                       self: string, e: Event)
    requires forall k :: k in keys ==> k in parts.vals && parts.vals[k].publicKey == k
    ensures e in Roster(parts, keys, channelId, self) <==>
      e.VoiceParticipantJoined? && e.pjChannelId == channelId && e.pjPublicKey in keys && e.pjPublicKey != self
      && e.pjName == parts.vals[e.pjPublicKey].name
  {
    if keys != [] {
      RosterExact(parts, keys[1..], channelId, self, e);
      assert forall k :: k in keys <==> k == keys[0] || k in keys[1..];
    }
  }

  /** The `voice:new-producer` events replaying a producer listing. */
  function NewProducerEvents(channelId: string, ls: seq<ProducerListing>): (r: seq<Event>)
    ensures |r| == |ls|
    ensures forall i :: 0 <= i < |ls| ==>
      r[i] == VoiceNewProducer(channelId, ls[i].producerId, ls[i].producerPublicKey, ls[i].kind, ls[i].producerKind)
  {
    seq(|ls|, i requires 0 <= i < |ls| =>
      VoiceNewProducer(channelId, ls[i].producerId, ls[i].producerPublicKey, ls[i].kind, ls[i].producerKind))
  }

  /** The rooms after `getOrCreateRoom` succeeded with the engine's router. */
  function RoomsWith(rooms: OMap<string, Room>, channelId: string, router: Option<string>): OMap<string, Room>
    requires rooms.Valid() && (channelId !in rooms.vals ==> router.Some?)
  {
    if channelId in rooms.vals then rooms else rooms.Put(channelId, Room(channelId, router.value, Empty()))
  }

  /**
   * The state after a record with a key entered room `channelId` of `rooms`: it is
   * the room's participant under its key, with no media; its record names the
   * room; it was sent `voice:joined`, then the other participants, then their
   * producers; and every other member was told it joined.
   */
  ghost predicate Entered(s: Server, conns: OMap<Socket, Conn>, outbox: seq<(Socket, Event)>,
                          rooms: OMap<string, Room>, c: Conn, channelId: string)
    reads s, s.reg, s.voice
  {
    Seated(s, conns, rooms, c, channelId) && Greeted(s, outbox, c, channelId)
  }

  /** The rooms and the records after `c` took a seat in room `channelId` of `rooms`. */
  ghost predicate Seated(s: Server, conns: OMap<Socket, Conn>, rooms: OMap<string, Room>, c: Conn, channelId: string)
    reads s, s.reg, s.voice
  {
    var key := c.publicKey.GetOr("");
    && conns.Valid() && rooms.Valid()
    && channelId in rooms.vals && rooms.vals[channelId].participants.Valid()
    && s.voice.rooms == WithParticipant(rooms, channelId, key, NewParticipant(key, c.name.GetOr("Unknown"), c.ws))
    && s.reg.conns == conns.Put(c.ws, c.(voiceChannelId := Some(channelId)))
  }

  /** What a joiner of room `channelId` is sent, and what every other member is told. */
  ghost predicate Greeted(s: Server, outbox: seq<(Socket, Event)>, c: Conn, channelId: string)
    reads s, s.reg, s.voice
  {
    var key := c.publicKey.GetOr("");
    && s.reg.Valid() && s.voice.Valid()
    && channelId in s.voice.rooms.vals
    && var parts := s.voice.rooms.vals[channelId].participants;
    && parts.Valid()
    && s.reg.outbox == outbox + Unicast(s.reg.open, c.ws, VoiceJoined(channelId, s.cfg.iceServers))
       + UnicastAll(s.reg.open, c.ws, Roster(parts, parts.keys, channelId, key))
       + UnicastAll(s.reg.open, c.ws, NewProducerEvents(channelId, s.voice.OtherProducersIn(channelId, key)))
       + Deliveries(AuthenticatedConnections(s.reg.All()), Some(c.ws), s.reg.open,
                    VoiceParticipantJoined(channelId, key, c.name.GetOr("Unknown")))
  }

  /**
   * `handleVoiceJoin`. An engine that did not start gives `VOICE_ERROR`, a full room
   * `VOICE_FULL`, and a router the engine fails to create `VOICE_ERROR`, each with
   * nothing else changed.
   */
  method HandleVoiceJoin(s: Server, ws: Socket, channelId: string, e: Engine)
    requires s.Valid() && EngineFresh(s.voice, e)
    modifies s.voice`rooms, s.voice`owner, s.reg`conns, s.reg`outbox
    ensures s.Valid()
    ensures !HasIdentity(old(s.reg.Get(ws))) ==>
      s.voice.rooms == old(s.voice.rooms) && s.reg.conns == old(s.reg.conns) && s.reg.outbox == old(s.reg.outbox)
    ensures HasIdentity(old(s.reg.Get(ws))) ==>
      var refused := !e.sfuReady || RoomFull(s.cfg, old(s.voice.rooms), channelId)
                     || (channelId !in old(s.voice.rooms.vals) && e.router.None?);
      && (refused ==>
            s.voice.rooms == old(s.voice.rooms) && s.reg.conns == old(s.reg.conns)
            && s.reg.outbox == old(s.reg.outbox)
               + ErrorTo(s.reg.open, ws, if e.sfuReady && RoomFull(s.cfg, old(s.voice.rooms), channelId)
                                         then VoiceFull else VoiceError))
      && (!refused ==>
            old(s.voice.rooms).Valid()
            && Entered(s, old(s.reg.conns), old(s.reg.outbox), RoomsWith(old(s.voice.rooms), channelId, e.router),
                       old(s.reg.Get(ws)).value, channelId))
  {
    var conn := s.reg.Get(ws);
    if HasIdentity(conn) {
      if !e.sfuReady {
        Tell(s, ws, RealmError(VoiceError));
      } else if RoomFull(s.cfg, s.voice.rooms, channelId) {
        Tell(s, ws, RealmError(VoiceFull));
      } else {
        var room := s.voice.GetOrCreateRoom(channelId, e.router);
        if room.Err? {
          Tell(s, ws, RealmError(VoiceError));
        } else {
          EnterRoom(s, conn.value, channelId);
        }
      }
    }
  }

  /** The part of `handleVoiceJoin` after the room is there. */
  method EnterRoom(s: Server, c: Conn, channelId: string)
    requires s.Valid() && s.reg.Get(c.ws) == Some(c) && HasIdentity(Some(c)) && channelId in s.voice.rooms.vals
    modifies s.voice`rooms, s.reg`conns, s.reg`outbox
    ensures s.Valid()
    ensures Entered(s, old(s.reg.conns), old(s.reg.outbox), old(s.voice.rooms), c, channelId)
  {
    TakeSeat(s, c, channelId);
    GreetJoiner(s, c, channelId);
  }

  /** The replies to the joiner and the announcement of its arrival. */
  method GreetJoiner(s: Server, c: Conn, channelId: string)
    requires s.Valid() && channelId in s.voice.rooms.vals
    modifies s.reg`outbox
    ensures s.Valid()
    ensures Greeted(s, old(s.reg.outbox), c, channelId)
  {
    var key := c.publicKey.GetOr("");
    var room := s.voice.GetRoom(channelId);
    var parts := room.value.participants;
    Greet(s, c.ws, VoiceJoined(channelId, s.cfg.iceServers), Roster(parts, parts.keys, channelId, key),
          NewProducerEvents(channelId, s.voice.OtherProducersIn(channelId, key)),
          VoiceParticipantJoined(channelId, key, c.name.GetOr("Unknown")));
  }

  /** The joiner becomes the room's participant, and its record names the room. */
  method TakeSeat(s: Server, c: Conn, channelId: string)
    requires s.Valid() && s.reg.Get(c.ws) == Some(c) && HasIdentity(Some(c)) && channelId in s.voice.rooms.vals
    modifies s.voice`rooms, s.reg`conns
    ensures s.Valid()
    ensures old(s.voice.rooms.vals[channelId]).participants.Valid()
    ensures s.voice.rooms == WithParticipant(old(s.voice.rooms), channelId, c.publicKey.value,
                                             NewParticipant(c.publicKey.value, c.name.GetOr("Unknown"), c.ws))
    ensures s.reg.conns == old(s.reg.conns).Put(c.ws, c.(voiceChannelId := Some(channelId)))
  {
    Seat(s, channelId, c.publicKey.value, c.name.GetOr("Unknown"), c.ws);
    Rewrite(s, c.(voiceChannelId := Some(channelId)));
  }

  // ---------------------------------------------------------------------------
  // voice:leave, and the voice part of a closing connection

  /** The producers participant `k` of room `c` holds, if it is there. */
  function Held(rooms: OMap<string, Room>, c: string, k: string): seq<ProducerListing>
    requires Shaped(rooms)
  {
    if HasParticipant(rooms, c, k) then ListProducers(rooms.vals[c].participants.vals[k], k) else []
  }

  /** A `voice:producer-closed` event for each producer, then `voice:participant:left`. */
  function LeaveEvents(c: string, k: string, held: seq<ProducerListing>): (r: seq<Event>)
    ensures |r| == |held| + 1 && r[|held|] == VoiceParticipantLeft(c, k)
    ensures forall i :: 0 <= i < |held| ==> r[i] == VoiceProducerClosed(c, held[i].producerId, k, held[i].producerKind)
  {
    seq(|held|, i requires 0 <= i < |held| => VoiceProducerClosed(c, held[i].producerId, k, held[i].producerKind))
    + [VoiceParticipantLeft(c, k)]
  }

  /**
   * Leaving announces the closing of every producer the participant held, each
   * once, and then the departure.
   */
  lemma LeaveAnnouncesProducers(p: Participant, c: string, k: string)
    requires p.producers.Valid()
    ensures var es := LeaveEvents(c, k, ListProducers(p, k));
      && |es| == p.producers.Size() + 1 && es[|es| - 1] == VoiceParticipantLeft(c, k)
      && (forall id :: id in p.producers.vals ==>
            VoiceProducerClosed(c, id, k, p.producers.vals[id].producerKind) in es)
  {
    var held := ListProducers(p, k);
    var es := LeaveEvents(c, k, held);
    forall id | id in p.producers.vals
      ensures VoiceProducerClosed(c, id, k, p.producers.vals[id].producerKind) in es
    {
      var i :| 0 <= i < |p.producers.keys| && p.producers.keys[i] == id;
      assert es[i] == VoiceProducerClosed(c, id, k, p.producers.vals[id].producerKind);
    }
  }

  /**
   * The state after participant `key` left room `channelId`: removed with its media
   * closed (the room too when it is left empty), and the leave events broadcast to
   * every member.
   */
  ghost predicate Left(s: Server, rooms: OMap<string, Room>, closed: set<string>, outbox: seq<(Socket, Event)>,
                       key: string, channelId: string)
    reads s, s.reg, s.voice
  {
    && s.reg.Valid() && Shaped(rooms)
    && (channelId !in rooms.vals ==> s.voice.rooms == rooms && s.voice.closed == closed)
    && (channelId in rooms.vals ==>
          s.voice.rooms == RoomsAfterRemove(rooms, channelId, key)
          && s.voice.closed == ClosedAfterRemove(rooms, closed, channelId, key))
    && s.reg.outbox == outbox + DeliveriesEach(AuthenticatedConnections(s.reg.All()), None, s.reg.open,
                                               LeaveEvents(channelId, key, Held(rooms, channelId, key)))
  }

  /** `removeParticipant` with its announcements, as `voice:leave` and a closing connection do it. */
  method LeaveVoice(s: Server, key: string, channelId: string)
    requires s.Valid()
    modifies s.voice`rooms, s.voice`closed, s.reg`outbox
    ensures s.Valid()
    ensures Left(s, old(s.voice.rooms), old(s.voice.closed), old(s.reg.outbox), key, channelId)
  {
    OkShaped(s.voice.rooms, s.voice.owner, s.voice.closed);
    var held := Held(s.voice.rooms, channelId, key);
    Unseat(s, channelId, key);
    AnnounceEach(s, LeaveEvents(channelId, key, held));
  }

  /**
   * `handleVoiceLeave`: the record stops naming a voice room, and the participant
   * leaves the room named in the payload (the announcements go out even when it
   * was not in it).
   */
  method HandleVoiceLeave(s: Server, ws: Socket, channelId: string)
    requires s.Valid()
    modifies s.voice`rooms, s.voice`closed, s.reg`conns, s.reg`outbox
    ensures s.Valid()
    ensures !HasIdentity(old(s.reg.Get(ws))) ==>
      s.voice.rooms == old(s.voice.rooms) && s.voice.closed == old(s.voice.closed)
      && s.reg.conns == old(s.reg.conns) && s.reg.outbox == old(s.reg.outbox)
    ensures HasIdentity(old(s.reg.Get(ws))) ==>
      var c := old(s.reg.Get(ws)).value;
      && s.reg.conns == old(s.reg.conns).Put(ws, c.(voiceChannelId := None))
      && Left(s, old(s.voice.rooms), old(s.voice.closed), old(s.reg.outbox), c.publicKey.value, channelId)
  {
    var conn := s.reg.Get(ws);
    if HasIdentity(conn) {
      s.reg.Update(conn.value.(voiceChannelId := None));
      LeaveVoice(s, conn.value.publicKey.value, channelId);
    }
  }

  // ---------------------------------------------------------------------------
  // Transports, producers and consumers

  /**
   * The state after participant `key` asked for a transport: the new transport's id
   * to the caller, or `VOICE_ERROR` with the rooms unchanged when there is no such
   * participant or `createTransport` throws.
   */
  ghost predicate TransportCreated(s: Server, rooms: OMap<string, Room>, outbox: seq<(Socket, Event)>, ws: Socket,
                                   key: string, channelId: string, direction: Direction, transport: Option<string>)
    reads s, s.reg, s.voice
  {
    if HasParticipant(rooms, channelId, key) && transport.Some? then
      rooms.Valid() && rooms.vals[channelId].participants.Valid()
      && s.voice.rooms == WithParticipant(rooms, channelId, key,
           WithTransport(rooms.vals[channelId].participants.vals[key], direction, transport.value))
      && s.reg.outbox == outbox + Unicast(s.reg.open, ws, VoiceTransportCreated(channelId, direction, transport.value))
    else
      s.voice.rooms == rooms && s.reg.outbox == outbox + ErrorTo(s.reg.open, ws, VoiceError)
  }

  /** `handleVoiceCreateTransport`. */
  method HandleCreateTransport(s: Server, ws: Socket, channelId: string, direction: Direction, e: Engine)
    requires s.Valid() && EngineFresh(s.voice, e)
    modifies s.voice`rooms, s.voice`owner, s.reg`outbox
    ensures s.Valid()
    ensures !HasIdentity(old(s.reg.Get(ws))) ==> s.voice.rooms == old(s.voice.rooms) && s.reg.outbox == old(s.reg.outbox)
    ensures HasIdentity(old(s.reg.Get(ws))) ==>
      TransportCreated(s, old(s.voice.rooms), old(s.reg.outbox), ws, old(s.reg.Get(ws)).value.publicKey.value,
                       channelId, direction, e.transport)
  {
    var conn := s.reg.Get(ws);
    if HasIdentity(conn) {
      CreateTransportFor(s, ws, conn.value.publicKey.value, channelId, direction, e.transport);
    }
  }

  /** The body of `handleVoiceCreateTransport` for a caller with a key. */
  method CreateTransportFor(s: Server, ws: Socket, key: string, channelId: string, direction: Direction,
                            transport: Option<string>)
    requires s.Valid() && (transport.Some? ==> s.voice.Fresh(transport.value))
    modifies s.voice`rooms, s.voice`owner, s.reg`outbox
    ensures s.Valid()
    ensures TransportCreated(s, old(s.voice.rooms), old(s.reg.outbox), ws, key, channelId, direction, transport)
  {
    var r := NewTransport(s, channelId, key, direction, transport);
    if r.Ok? {
      Tell(s, ws, VoiceTransportCreated(channelId, direction, r.value));
    } else {
      Tell(s, ws, RealmError(VoiceError));
    }
  }

  /**
   * `handleVoiceConnectTransport`: silent on success; `VOICE_ERROR` when the caller
   * has no transport with that id or the engine refuses the connection.
   */
  method HandleConnectTransport(s: Server, ws: Socket, channelId: string, transportId: string, e: Engine)
    requires s.Valid()
    modifies s.reg`outbox
    ensures !HasIdentity(old(s.reg.Get(ws))) ==> s.reg.outbox == old(s.reg.outbox)
    ensures HasIdentity(old(s.reg.Get(ws))) ==>
      var key := old(s.reg.Get(ws)).value.publicKey.value;
      if SelectTransport(s.voice.rooms, channelId, key, transportId).Ok? && e.connected then
        s.reg.outbox == old(s.reg.outbox)
      else s.reg.outbox == old(s.reg.outbox) + ErrorTo(s.reg.open, ws, VoiceError)
  {
    var conn := s.reg.Get(ws);
    if HasIdentity(conn) {
      var selected := SelectTransport(s.voice.rooms, channelId, conn.value.publicKey.value, transportId);
      if selected.Err? || !e.connected {
        Tell(s, ws, RealmError(VoiceError));
      }
    }
  }

  /**
   * The state after participant `key` asked to produce: the rooms as `Produce` leaves
   * them; on success the producer's id to the caller and the new producer announced
   * to every other member; `VOICE_ERROR` otherwise.
   */
  ghost predicate Produced(s: Server, rooms: OMap<string, Room>, outbox: seq<(Socket, Event)>, ws: Socket, key: string,
                           channelId: string, kind: MediaKind, producerKind: ProducerKind, producer: Option<string>)
    reads s, s.reg, s.voice
  {
    && s.reg.Valid() && Shaped(rooms)
    && var out := Produce(rooms, channelId, key, kind, producerKind, producer);
    && s.voice.rooms == out.1
    && (out.0.Err? ==> s.reg.outbox == outbox + ErrorTo(s.reg.open, ws, VoiceError))
    && (out.0.Ok? ==>
          s.reg.outbox == outbox + Unicast(s.reg.open, ws, VoiceProduced(out.0.value, producerKind))
          + Deliveries(AuthenticatedConnections(s.reg.All()), Some(ws), s.reg.open,
                       VoiceNewProducer(channelId, out.0.value, key, kind, producerKind)))
  }

  /** `handleVoiceProduce`. */
  method HandleProduce(s: Server, ws: Socket, channelId: string, kind: MediaKind, producerKind: ProducerKind, e: Engine)
    requires s.Valid() && EngineFresh(s.voice, e)
    modifies s.voice`rooms, s.voice`owner, s.reg`outbox
    ensures s.Valid()
    ensures !HasIdentity(old(s.reg.Get(ws))) ==> s.voice.rooms == old(s.voice.rooms) && s.reg.outbox == old(s.reg.outbox)
    ensures HasIdentity(old(s.reg.Get(ws))) ==>
      Produced(s, old(s.voice.rooms), old(s.reg.outbox), ws, old(s.reg.Get(ws)).value.publicKey.value,
               channelId, kind, producerKind, e.producer)
  {
    var conn := s.reg.Get(ws);
    if HasIdentity(conn) {
      ProduceFor(s, ws, conn.value.publicKey.value, channelId, kind, producerKind, e.producer);
    }
  }

  /** The body of `handleVoiceProduce` for a caller with a key. */
  method ProduceFor(s: Server, ws: Socket, key: string, channelId: string, kind: MediaKind,
                    producerKind: ProducerKind, producer: Option<string>)
    requires s.Valid() && (producer.Some? ==> s.voice.Fresh(producer.value))
    modifies s.voice`rooms, s.voice`owner, s.reg`outbox
    ensures s.Valid()
    ensures Produced(s, old(s.voice.rooms), old(s.reg.outbox), ws, key, channelId, kind, producerKind, producer)
  {
    var r := NewProducer(s, channelId, key, kind, producerKind, producer);
    if r.Ok? {
      ReplyAndAnnounce(s, ws, VoiceProduced(r.value, producerKind),
                       VoiceNewProducer(channelId, r.value, key, kind, producerKind));
    } else {
      Tell(s, ws, RealmError(VoiceError));
    }
  }

  /**
   * A producer just created is replayed to every participant who joins the room
   * later, under its owner's key.
   */
  lemma ProducedReachesLateJoiner(rooms: OMap<string, Room>, c: string, k: string, kind: MediaKind,
                                  producerKind: ProducerKind, producer: Option<string>, joiner: string)
    requires Shaped(rooms) && joiner != k
    requires Produce(rooms, c, k, kind, producerKind, producer).0.Ok?
    ensures var after := Produce(rooms, c, k, kind, producerKind, producer).1;
      && c in after.vals && after.vals[c].participants.Valid()
      && (forall k2 :: k2 in after.vals[c].participants.keys ==>
            k2 in after.vals[c].participants.vals && after.vals[c].participants.vals[k2].producers.Valid())
      && ProducerListing(producer.value, k, kind, producerKind)
         in OtherProducers(after.vals[c].participants, after.vals[c].participants.keys, joiner)
  {
    var p := rooms.vals[c].participants.vals[k];
    var after := Produce(rooms, c, k, kind, producerKind, producer).1;
    var p' := p.(producers := p.producers.Put(producer.value, ProducerInfo(kind, producerKind)));
    assert after == WithParticipant(rooms, c, k, p');
    var parts := after.vals[c].participants;
    assert parts == rooms.vals[c].participants.Put(k, p');
    OtherProducersExact(parts, parts.keys, joiner, ProducerListing(producer.value, k, kind, producerKind));
  }

  /**
   * The state after participant `key` asked to consume a producer: the rooms as
   * `Consume` leaves them, and the new consumer to the caller or `VOICE_ERROR` when
   * there is none.
   */
  ghost predicate ConsumedBy(s: Server, rooms: OMap<string, Room>, outbox: seq<(Socket, Event)>, ws: Socket,
                             key: string, channelId: string, producerId: string, canConsume: bool,
                             consumer: Option<string>)
    reads s, s.reg, s.voice
  {
    && Shaped(rooms)
    && var out := Consume(rooms, channelId, key, producerId, canConsume, consumer);
    && s.voice.rooms == out.1
    && (out.0.Ok? && out.0.value.Some? ==>
          var x := out.0.value.value;
          s.reg.outbox == outbox
          + Unicast(s.reg.open, ws, VoiceConsumed(x.consumerId, x.producerId, x.kind, x.producerKind, x.producerPublicKey)))
    && (!(out.0.Ok? && out.0.value.Some?) ==> s.reg.outbox == outbox + ErrorTo(s.reg.open, ws, VoiceError))
  }

  /** `handleVoiceConsume`. */
  method HandleConsume(s: Server, ws: Socket, channelId: string, producerId: string, e: Engine)
    requires s.Valid() && EngineFresh(s.voice, e)
    modifies s.voice`rooms, s.voice`owner, s.reg`outbox
    ensures s.Valid()
    ensures !HasIdentity(old(s.reg.Get(ws))) ==> s.voice.rooms == old(s.voice.rooms) && s.reg.outbox == old(s.reg.outbox)
    ensures HasIdentity(old(s.reg.Get(ws))) ==>
      ConsumedBy(s, old(s.voice.rooms), old(s.reg.outbox), ws, old(s.reg.Get(ws)).value.publicKey.value,
                 channelId, producerId, e.canConsume, e.consumer)
  {
    var conn := s.reg.Get(ws);
    if HasIdentity(conn) {
      ConsumeFor(s, ws, conn.value.publicKey.value, channelId, producerId, e.canConsume, e.consumer);
    }
  }

  /** The body of `handleVoiceConsume` for a caller with a key. */
  method ConsumeFor(s: Server, ws: Socket, key: string, channelId: string, producerId: string, canConsume: bool,
                    consumer: Option<string>)
    requires s.Valid() && (consumer.Some? ==> s.voice.Fresh(consumer.value))
    modifies s.voice`rooms, s.voice`owner, s.reg`outbox
    ensures s.Valid()
    ensures ConsumedBy(s, old(s.voice.rooms), old(s.reg.outbox), ws, key, channelId, producerId, canConsume, consumer)
  {
    var r := NewConsumer(s, channelId, key, producerId, canConsume, consumer);
    if r.Ok? && r.value.Some? {
      var x := r.value.value;
      Tell(s, ws, VoiceConsumed(x.consumerId, x.producerId, x.kind, x.producerKind, x.producerPublicKey));
    } else {
      Tell(s, ws, RealmError(VoiceError));
    }
  }

  /**
   * The state after participant `key` asked to close a producer: only one it holds
   * is closed, and then its closing is announced to every member.
   */
  ghost predicate ProducerClosed(s: Server, rooms: OMap<string, Room>, closed: set<string>,
                                 outbox: seq<(Socket, Event)>, key: string, channelId: string, producerId: string)
    reads s, s.reg, s.voice
  {
    && s.reg.Valid() && Shaped(rooms)
    && var out := CloseOutcome(rooms, channelId, key, producerId);
    && s.voice.rooms == out.1
    && (out.0.None? ==> s.voice.closed == closed && s.reg.outbox == outbox)
    && (out.0.Some? ==>
          s.voice.closed == closed + {producerId}
          && s.reg.outbox == outbox + Deliveries(AuthenticatedConnections(s.reg.All()), None, s.reg.open,
               VoiceProducerClosed(channelId, producerId, key, out.0.value.producerKind)))
  }

  /** `handleVoiceCloseProducer`. */
  method HandleCloseProducer(s: Server, ws: Socket, channelId: string, producerId: string)
    requires s.Valid()
    modifies s.voice`rooms, s.voice`closed, s.reg`outbox
    ensures s.Valid()
    ensures !HasIdentity(old(s.reg.Get(ws))) ==>
      s.voice.rooms == old(s.voice.rooms) && s.voice.closed == old(s.voice.closed) && s.reg.outbox == old(s.reg.outbox)
    ensures HasIdentity(old(s.reg.Get(ws))) ==>
      ProducerClosed(s, old(s.voice.rooms), old(s.voice.closed), old(s.reg.outbox),
                     old(s.reg.Get(ws)).value.publicKey.value, channelId, producerId)
  {
    var conn := s.reg.Get(ws);
    if HasIdentity(conn) {
      CloseFor(s, conn.value.publicKey.value, channelId, producerId);
    }
  }

  /** The body of `handleVoiceCloseProducer` for a caller with a key. */
  method CloseFor(s: Server, key: string, channelId: string, producerId: string)
    requires s.Valid()
    modifies s.voice`rooms, s.voice`closed, s.reg`outbox
    ensures s.Valid()
    ensures ProducerClosed(s, old(s.voice.rooms), old(s.voice.closed), old(s.reg.outbox), key, channelId, producerId)
  {
    var info := DropProducer(s, channelId, key, producerId);
    if info.Some? {
      Announce(s, VoiceProducerClosed(channelId, producerId, key, info.value.producerKind), None);
    }
  }

  // ---------------------------------------------------------------------------
  // The registry's and the rooms' operations, as steps of the whole server

  /** One reply to the caller, then an announcement to every other member. */
  method ReplyAndAnnounce(s: Server, ws: Socket, reply: Event, announce: Event)
    requires s.Valid()
    modifies s.reg`outbox
    ensures s.Valid()
    ensures s.reg.outbox == old(s.reg.outbox) + Unicast(s.reg.open, ws, reply)
      + Deliveries(AuthenticatedConnections(s.reg.All()), Some(ws), s.reg.open, announce)
  {
    s.reg.Send(ws, reply);
    s.reg.BroadcastToAll(announce, Some(ws));
  }

  /** The joiner's replies, in order, then the announcement to every other member. */
  method Greet(s: Server, ws: Socket, joined: Event, roster: seq<Event>, producers: seq<Event>, announce: Event)
    requires s.Valid()
    modifies s.reg`outbox
    ensures s.Valid()
    ensures s.reg.outbox == old(s.reg.outbox) + Unicast(s.reg.open, ws, joined) + UnicastAll(s.reg.open, ws, roster)
      + UnicastAll(s.reg.open, ws, producers)
      + Deliveries(AuthenticatedConnections(s.reg.All()), Some(ws), s.reg.open, announce)
  {
    s.reg.Send(ws, joined);
    s.reg.SendEach(ws, roster);
    s.reg.SendEach(ws, producers);
    s.reg.BroadcastToAll(announce, Some(ws));
  }

  /** `removeParticipant`. */
  method Unseat(s: Server, channelId: string, key: string)
    requires s.Valid()
    modifies s.voice`rooms, s.voice`closed
    ensures s.Valid()
    ensures channelId !in old(s.voice.rooms.vals) ==> s.voice.rooms == old(s.voice.rooms) && s.voice.closed == old(s.voice.closed)
    ensures channelId in old(s.voice.rooms.vals) ==>
      s.voice.rooms == RoomsAfterRemove(old(s.voice.rooms), channelId, key)
      && s.voice.closed == ClosedAfterRemove(old(s.voice.rooms), old(s.voice.closed), channelId, key)
  {
    s.voice.RemoveParticipant(channelId, key);
  }

  /** `broadcastToAll` of each event in turn. */
  method AnnounceEach(s: Server, es: seq<Event>)
    requires s.Valid()
    modifies s.reg`outbox
    ensures s.Valid()
    ensures s.reg.outbox == old(s.reg.outbox) + DeliveriesEach(AuthenticatedConnections(s.reg.All()), None, s.reg.open, es)
  {
    s.reg.BroadcastEach(es, None);
  }

  /** `setParticipant`. */
  method Seat(s: Server, channelId: string, key: string, name: string, ws: Socket)
    requires s.Valid() && channelId in s.voice.rooms.vals
    modifies s.voice`rooms
    ensures s.Valid()
    ensures old(s.voice.rooms.vals[channelId]).participants.Valid()
    ensures s.voice.rooms == WithParticipant(old(s.voice.rooms), channelId, key, NewParticipant(key, name, ws))
  {
    s.voice.SetParticipant(channelId, key, name, ws);
  }

  /** `createTransport`. */
  method NewTransport(s: Server, channelId: string, key: string, direction: Direction, transport: Option<string>)
    returns (r: Result<string, RoomError>)
    requires s.Valid() && (transport.Some? ==> s.voice.Fresh(transport.value))
    modifies s.voice`rooms, s.voice`owner
    ensures s.Valid()
    ensures !(HasParticipant(old(s.voice.rooms), channelId, key) && transport.Some?) ==>
      r.Err? && s.voice.rooms == old(s.voice.rooms)
    ensures HasParticipant(old(s.voice.rooms), channelId, key) && transport.Some? ==>
      old(s.voice.rooms.vals[channelId]).participants.Valid()
      && r == Ok(transport.value)
      && s.voice.rooms == WithParticipant(old(s.voice.rooms), channelId, key,
           WithTransport(old(s.voice.rooms.vals[channelId].participants.vals[key]), direction, transport.value))
  {
    r := s.voice.CreateTransport(channelId, key, direction, transport);
  }

  /** `createProducer`. */
  method NewProducer(s: Server, channelId: string, key: string, kind: MediaKind, producerKind: ProducerKind,
                     producer: Option<string>) returns (r: Result<string, RoomError>)
    requires s.Valid() && (producer.Some? ==> s.voice.Fresh(producer.value))
    modifies s.voice`rooms, s.voice`owner
    ensures s.Valid()
    ensures Shaped(old(s.voice.rooms))
      && (r, s.voice.rooms) == Produce(old(s.voice.rooms), channelId, key, kind, producerKind, producer)
  {
    r := s.voice.CreateProducer(channelId, key, kind, producerKind, producer);
  }

  /** `createConsumer`. */
  method NewConsumer(s: Server, channelId: string, key: string, producerId: string, canConsume: bool,
                     consumer: Option<string>) returns (r: Result<Option<Consumed>, RoomError>)
    requires s.Valid() && (consumer.Some? ==> s.voice.Fresh(consumer.value))
    modifies s.voice`rooms, s.voice`owner
    ensures s.Valid()
    ensures Shaped(old(s.voice.rooms))
      && (r, s.voice.rooms) == Consume(old(s.voice.rooms), channelId, key, producerId, canConsume, consumer)
  {
    r := s.voice.CreateConsumer(channelId, key, producerId, canConsume, consumer);
  }

  /** `closeProducer`. */
  method DropProducer(s: Server, channelId: string, key: string, producerId: string) returns (r: Option<ProducerInfo>)
    requires s.Valid()
    modifies s.voice`rooms, s.voice`closed
    ensures s.Valid()
    ensures Shaped(old(s.voice.rooms)) && (r, s.voice.rooms) == CloseOutcome(old(s.voice.rooms), channelId, key, producerId)
    ensures s.voice.closed == old(s.voice.closed) + (if r.Some? then {producerId} else {})
  {
    r := s.voice.CloseProducer(channelId, key, producerId);
  }
}
