/**
 * Voice rooms: for each voice channel in use, a media router and the participants
 * with their transports, producers and consumers. Media-engine objects are opaque
 * handles (strings); `closed` is the set of handles whose `close()` has been called,
 * and the ghost map `owner` records the slot each handle was created for. The engine's
 * own results (a new router, transport, producer or consumer, or a failure, and
 * `canConsume`) are parameters.
 */
module Rooms {
  import opened Wrappers
  import opened Sequences
  import opened OrderedMaps
  import opened Protocol
  import Connections

  datatype ProducerInfo = ProducerInfo(kind: MediaKind, producerKind: ProducerKind)

  datatype Participant = Participant(
    publicKey: string,
    name: string,
    ws: Connections.Socket,
    sendTransport: Option<string>,
    recvTransport: Option<string>,
    producers: OMap<string, ProducerInfo>,
    consumers: OMap<string, MediaKind>)

  datatype Room = Room(channelId: string, router: string, participants: OMap<string, Participant>)

  /** Where a handle lives: a room's router, or one of a participant's slots. */
  datatype Slot =
    | RouterOf(channelId: string)
    | SendOf(channelId: string, publicKey: string)
    | RecvOf(channelId: string, publicKey: string)
    | ProducerOf(channelId: string, publicKey: string)
    | ConsumerOf(channelId: string, publicKey: string)

  /** The errors the room functions throw. */
  datatype RoomError = RoomNotFound | ParticipantNotFound | TransportNotFound | NoSendTransport | EngineFailed

  /** A handle is live in `slot`: created for it and not closed. */
  predicate Owned(h: string, slot: Slot, owner: map<string, Slot>, closed: set<string>) {
    h in owner && owner[h] == slot && h !in closed
  }

  /** The handles a participant holds. */
  function HandlesOf(p: Participant): set<string> {
    (if p.sendTransport.Some? then {p.sendTransport.value} else {})
    + (if p.recvTransport.Some? then {p.recvTransport.value} else {})
    + p.producers.vals.Keys + p.consumers.vals.Keys
  }

  /** A participant filed under `k` in room `c` holds only live handles created for it. */
  ghost predicate ParticipantOk(p: Participant, c: string, k: string, owner: map<string, Slot>, closed: set<string>) {
    p.publicKey == k && p.producers.Valid() && p.consumers.Valid()
    && (p.sendTransport.Some? ==> Owned(p.sendTransport.value, SendOf(c, k), owner, closed))
    && (p.recvTransport.Some? ==> Owned(p.recvTransport.value, RecvOf(c, k), owner, closed))
    && (forall h :: h in p.producers.vals ==> Owned(h, ProducerOf(c, k), owner, closed))
    && (forall h :: h in p.consumers.vals ==> Owned(h, ConsumerOf(c, k), owner, closed))
  }

  ghost predicate RoomOk(room: Room, c: string, owner: map<string, Slot>, closed: set<string>) {
    room.channelId == c && room.participants.Valid() && Owned(room.router, RouterOf(c), owner, closed)
    && forall k :: k in room.participants.vals ==> ParticipantOk(room.participants.vals[k], c, k, owner, closed)
  }

  /** Every room is filed under its channel and holds only live handles created for it. */
  ghost predicate RoomsOk(rooms: OMap<string, Room>, owner: map<string, Slot>, closed: set<string>) {
    rooms.Valid() && forall c :: c in rooms.vals ==> RoomOk(rooms.vals[c], c, owner, closed)
  }

  /** A participant who has just joined: no transports, producers or consumers. */
  function NewParticipant(publicKey: string, name: string, ws: Connections.Socket): Participant {
    Participant(publicKey, name, ws, None, None, Empty(), Empty())
  }

  /** A handle that belongs to no room, router or participant slot. */
  predicate FreshIn(h: string, owner: map<string, Slot>, closed: set<string>) {
    h !in owner && h !in closed
  }

  /** Registering a fresh handle in `owner` keeps every live handle live. */
  lemma AddOwnerKeeps(rooms: OMap<string, Room>, owner: map<string, Slot>, closed: set<string>, h: string, slot: Slot)
    requires RoomsOk(rooms, owner, closed) && FreshIn(h, owner, closed)
    ensures RoomsOk(rooms, owner[h := slot], closed)
  {
    forall c | c in rooms.vals
      ensures RoomOk(rooms.vals[c], c, owner[h := slot], closed)
    {
      var room := rooms.vals[c];
      forall k | k in room.participants.vals
        ensures ParticipantOk(room.participants.vals[k], c, k, owner[h := slot], closed)
      {
        var p := room.participants.vals[k];
        assert ParticipantOk(p, c, k, owner, closed);
      }
    }
  }

  /**
   * The slots `removeParticipant(c, k)` empties: those of participant `k` in room `c`,
   * and the room's router when `withRouter`.
   */
  predicate Emptied(slot: Slot, c: string, k: string, withRouter: bool) {
    slot.channelId == c && if slot.RouterOf? then withRouter else slot.publicKey == k
  }

  /** Closing handles created for emptied slots keeps every other handle live. */
  lemma CloseKeeps(rooms: OMap<string, Room>, owner: map<string, Slot>, closed: set<string>, gone: set<string>,
                   c: string, k: string, withRouter: bool)
    requires RoomsOk(rooms, owner, closed)
    requires forall h :: h in gone ==> h in owner && Emptied(owner[h], c, k, withRouter)
    ensures forall c2 :: c2 in rooms.vals && (c2 != c || !withRouter) ==>
      Owned(rooms.vals[c2].router, RouterOf(c2), owner, closed + gone)
    ensures forall c2, k2 :: c2 in rooms.vals && k2 in rooms.vals[c2].participants.vals && (c2 != c || k2 != k) ==>
      ParticipantOk(rooms.vals[c2].participants.vals[k2], c2, k2, owner, closed + gone)
  {
    forall c2 | c2 in rooms.vals && (c2 != c || !withRouter)
      ensures Owned(rooms.vals[c2].router, RouterOf(c2), owner, closed + gone)
    {
      assert RoomOk(rooms.vals[c2], c2, owner, closed);
    }
    forall c2, k2 | c2 in rooms.vals && k2 in rooms.vals[c2].participants.vals && (c2 != c || k2 != k)
      ensures ParticipantOk(rooms.vals[c2].participants.vals[k2], c2, k2, owner, closed + gone)
    {
      assert RoomOk(rooms.vals[c2], c2, owner, closed);
      assert ParticipantOk(rooms.vals[c2].participants.vals[k2], c2, k2, owner, closed);
    }
  }

  /** The handles `removeParticipant` closes for the participant itself. */
  function Gone(room: Room, k: string): set<string> {
    if k in room.participants.vals then HandlesOf(room.participants.vals[k]) else {}
  }

  /** The rooms after `removeParticipant(c, k)` on an existing room. */
  function RoomsAfterRemove(rooms: OMap<string, Room>, c: string, k: string): OMap<string, Room>
    requires rooms.Valid() && c in rooms.vals && rooms.vals[c].participants.Valid()
  {
    var room := rooms.vals[c];
    var kept := room.participants.Remove(k);
    if kept.keys == [] then rooms.Remove(c) else rooms.Put(c, room.(participants := kept))
  }

  /** The closed handles after `removeParticipant(c, k)` on an existing room. */
  function ClosedAfterRemove(rooms: OMap<string, Room>, closed: set<string>, c: string, k: string): set<string>
    requires rooms.Valid() && c in rooms.vals && rooms.vals[c].participants.Valid()
  {
    var room := rooms.vals[c];
    var kept := room.participants.Remove(k);
    closed + Gone(room, k) + (if kept.keys == [] then {room.router} else {})
  }

  /** Removing a participant keeps the bookkeeping sound. */
  lemma RemoveKeepsOk(rooms: OMap<string, Room>, owner: map<string, Slot>, closed: set<string>, c: string, k: string)
    requires RoomsOk(rooms, owner, closed) && c in rooms.vals
    ensures rooms.vals[c].participants.Valid()
    ensures RoomsOk(RoomsAfterRemove(rooms, c, k), owner, ClosedAfterRemove(rooms, closed, c, k))
  {
    var room := rooms.vals[c];
    assert RoomOk(room, c, owner, closed);
    var kept := room.participants.Remove(k);
    var withRouter := kept.keys == [];
    var gone := Gone(room, k) + (if withRouter then {room.router} else {});
    if k in room.participants.vals {
      HandlesOwned(room, c, k, owner, closed);
    }
    CloseKeeps(rooms, owner, closed, gone, c, k, withRouter);
    assert ClosedAfterRemove(rooms, closed, c, k) == closed + gone;
    if withRouter {
      RemovedRoomOk(rooms, owner, closed + gone, c);
    } else {
      KeptRoomOk(rooms, owner, closed + gone, c, k);
    }
  }

  /** Unregistering room `c` keeps the other rooms, whose handles stayed live. */
  lemma RemovedRoomOk(rooms: OMap<string, Room>, owner: map<string, Slot>, closed: set<string>, c: string)
    requires rooms.Valid()
    requires forall c2 :: c2 in rooms.vals && c2 != c ==> (rooms.vals[c2].channelId == c2
      && rooms.vals[c2].participants.Valid() && Owned(rooms.vals[c2].router, RouterOf(c2), owner, closed))
    requires forall c2, k2 :: c2 in rooms.vals && k2 in rooms.vals[c2].participants.vals && c2 != c ==>
      ParticipantOk(rooms.vals[c2].participants.vals[k2], c2, k2, owner, closed)
    ensures RoomsOk(rooms.Remove(c), owner, closed)
  {
  }

  /** Putting room `c` back without participant `k` keeps every room sound. */
  lemma KeptRoomOk(rooms: OMap<string, Room>, owner: map<string, Slot>, closed: set<string>, c: string, k: string)
    requires rooms.Valid() && c in rooms.vals
    requires forall c2 :: c2 in rooms.vals ==> (rooms.vals[c2].channelId == c2
      && rooms.vals[c2].participants.Valid() && Owned(rooms.vals[c2].router, RouterOf(c2), owner, closed))
    requires forall c2, k2 :: c2 in rooms.vals && k2 in rooms.vals[c2].participants.vals && (c2 != c || k2 != k) ==>
      ParticipantOk(rooms.vals[c2].participants.vals[k2], c2, k2, owner, closed)
    ensures var room := rooms.vals[c];
      RoomsOk(rooms.Put(c, room.(participants := room.participants.Remove(k))), owner, closed)
  {
    var room := rooms.vals[c];
    var room' := room.(participants := room.participants.Remove(k));
    assert RoomOk(room', c, owner, closed);
  }

  /** The handles of participant `k` in room `c` were all created for its slots. */
  lemma HandlesOwned(room: Room, c: string, k: string, owner: map<string, Slot>, closed: set<string>)
    requires RoomOk(room, c, owner, closed) && k in room.participants.vals
    ensures forall h :: h in HandlesOf(room.participants.vals[k]) ==>
      h in owner && owner[h] in {SendOf(c, k), RecvOf(c, k), ProducerOf(c, k), ConsumerOf(c, k)} && h !in closed
  {
    assert ParticipantOk(room.participants.vals[k], c, k, owner, closed);
  }

  /** A producer id is held by at most one participant of a room. */
  lemma ProducerOwnerUnique(room: Room, c: string, owner: map<string, Slot>, closed: set<string>,
                            k1: string, k2: string, producerId: string)
    requires RoomOk(room, c, owner, closed)
    requires k1 in room.participants.vals && producerId in room.participants.vals[k1].producers.vals
    requires k2 in room.participants.vals && producerId in room.participants.vals[k2].producers.vals
    ensures k1 == k2
  {
    assert ParticipantOk(room.participants.vals[k1], c, k1, owner, closed);
    assert ParticipantOk(room.participants.vals[k2], c, k2, owner, closed);
  }

  /** The participant who holds `producerId`, searched in join order, with the producer's info. */
  function FindProducer(parts: OMap<string, Participant>, keys: seq<string>, producerId: string)
    : (r: Option<(string, ProducerInfo)>)
    requires forall k :: k in keys ==> k in parts.vals
    ensures r.Some? ==> (r.value.0 in keys && producerId in parts.vals[r.value.0].producers.vals
      && r.value.1 == parts.vals[r.value.0].producers.vals[producerId])
    ensures r.None? <==> forall k :: k in keys ==> producerId !in parts.vals[k].producers.vals
  {
    if keys == [] then None
    else if producerId in parts.vals[keys[0]].producers.vals then Some((keys[0], parts.vals[keys[0]].producers.vals[producerId]))
    else
      assert forall k :: k in keys ==> k == keys[0] || k in keys[1..];
      FindProducer(parts, keys[1..], producerId)
  }

  /** The search loop of `createConsumer`: the first participant, in join order, holding `producerId`. */
  method SearchProducer(parts: OMap<string, Participant>, keys: seq<string>, producerId: string)
    returns (found: Option<(string, ProducerInfo)>)
    requires forall k :: k in keys ==> k in parts.vals
    ensures found == FindProducer(parts, keys, producerId)
  {
    found := None;
    var i := 0;
    while i < |keys| && found.None?
      invariant 0 <= i <= |keys|
      invariant found.None? ==> (FindProducer(parts, keys[i..], producerId) == FindProducer(parts, keys, producerId))
      invariant found.Some? ==> found == FindProducer(parts, keys, producerId)
    {
      var q := parts.vals[keys[i]];
      if producerId in q.producers.vals {
        found := Some((keys[i], q.producers.vals[producerId]));
      }
      i := i + 1;
    }
  }

  /** `getOtherProducers`' entries. */
  datatype ProducerListing = ProducerListing(producerId: string, producerPublicKey: string, kind: MediaKind,
                                             producerKind: ProducerKind)

  function ListProducers(p: Participant, pk: string): (r: seq<ProducerListing>)
    requires p.producers.Valid()
    ensures |r| == |p.producers.keys|
    ensures forall i :: 0 <= i < |r| ==> r[i] == ProducerListing(p.producers.keys[i], pk,
      p.producers.vals[p.producers.keys[i]].kind, p.producers.vals[p.producers.keys[i]].producerKind)
  {
    seq(|p.producers.keys|, i requires 0 <= i < |p.producers.keys| =>
      var id := p.producers.keys[i];
      ProducerListing(id, pk, p.producers.vals[id].kind, p.producers.vals[id].producerKind))
  }

  /** The producers of the participants `keys` other than `exclude`, in order. */
  function OtherProducers(parts: OMap<string, Participant>, keys: seq<string>, exclude: string): seq<ProducerListing>
    requires forall k :: k in keys ==> k in parts.vals && parts.vals[k].producers.Valid()
  {
    if keys == [] then []
    else
      var rest := OtherProducers(parts, keys[1..], exclude);
      if keys[0] == exclude then rest else ListProducers(parts.vals[keys[0]], keys[0]) + rest
  }

  /**
   * `getOtherProducers` lists exactly the producers of the room's other participants,
   * each with its owner's key, kind and role.
   */
  lemma {:induction false} OtherProducersExact(parts: OMap<string, Participant>, keys: seq<string>, exclude: string,
                                               l: ProducerListing)
    requires forall k :: k in keys ==> k in parts.vals && parts.vals[k].producers.Valid()
    ensures l in OtherProducers(parts, keys, exclude) <==>
      l.producerPublicKey in keys && l.producerPublicKey != exclude
      && l.producerId in parts.vals[l.producerPublicKey].producers.vals
      && parts.vals[l.producerPublicKey].producers.vals[l.producerId] == ProducerInfo(l.kind, l.producerKind)
  {
    if keys != [] {
      OtherProducersExact(parts, keys[1..], exclude, l);
      assert forall k :: k in keys <==> k == keys[0] || k in keys[1..];
      var p := parts.vals[keys[0]];
      if keys[0] != exclude && l.producerPublicKey == keys[0] && l.producerId in p.producers.vals
         && p.producers.vals[l.producerId] == ProducerInfo(l.kind, l.producerKind) {
        var i :| 0 <= i < |p.producers.keys| && p.producers.keys[i] == l.producerId;
        assert ListProducers(p, keys[0])[i] == l;
      }
    }
  }

  function Summaries(parts: OMap<string, Participant>): (r: seq<ParticipantSummary>)
    requires parts.Valid()
    ensures |r| == |parts.keys|
    ensures forall i :: 0 <= i < |r| ==>
      r[i] == ParticipantSummary(parts.vals[parts.keys[i]].publicKey, parts.vals[parts.keys[i]].name)
  {
    var ps := parts.Values();
    seq(|ps|, i requires 0 <= i < |ps| => ParticipantSummary(ps[i].publicKey, ps[i].name))
  }

  /** The non-empty rooms among `keys`, each with its participants. */
  function VoiceParticipants(rooms: OMap<string, Room>, keys: seq<string>): seq<(string, seq<ParticipantSummary>)>
    requires forall c :: c in keys ==> c in rooms.vals && rooms.vals[c].participants.Valid()
  {
    if keys == [] then []
    else
      var rest := VoiceParticipants(rooms, keys[1..]);
      var parts := rooms.vals[keys[0]].participants;
      if parts.keys != [] then [(keys[0], Summaries(parts))] + rest else rest
  }

  /** `getAllVoiceParticipants` has an entry for exactly the rooms with participants, listing them all. */
  lemma {:induction false} VoiceParticipantsExact(rooms: OMap<string, Room>, keys: seq<string>, c: string,
                                                  l: seq<ParticipantSummary>)
    requires forall c :: c in keys ==> c in rooms.vals && rooms.vals[c].participants.Valid()
    requires Distinct(keys)
    ensures (c, l) in VoiceParticipants(rooms, keys) <==>
      c in keys && rooms.vals[c].participants.keys != [] && l == Summaries(rooms.vals[c].participants)
  {
    if keys != [] {
      VoiceParticipantsExact(rooms, keys[1..], c, l);
      assert forall k :: k in keys <==> k == keys[0] || k in keys[1..];
      DistinctTail(keys);
    }
  }

  predicate IsScreen(i: ProducerInfo) {
    i.producerKind == Screen
  }

  /** Whether the participant shares a screen. */
  predicate SharesScreen(p: Participant) {
    exists id :: id in p.producers.vals && IsScreen(p.producers.vals[id])
  }

  /** The keys among `keys` of participants sharing a screen, in order. */
  function Sharers(parts: OMap<string, Participant>, keys: seq<string>): (r: seq<string>)
    requires forall k :: k in keys ==> k in parts.vals
    ensures forall k :: k in r <==> k in keys && SharesScreen(parts.vals[k])
  {
    if keys == [] then []
    else
      assert forall k :: k in keys <==> k == keys[0] || k in keys[1..];
      (if SharesScreen(parts.vals[keys[0]]) then [keys[0]] else []) + Sharers(parts, keys[1..])
  }

  /** The rooms among `keys` with at least one screen sharer, each with its sharers. */
  function ScreenShares(rooms: OMap<string, Room>, keys: seq<string>): seq<(string, seq<string>)>
    requires forall c :: c in keys ==> c in rooms.vals && rooms.vals[c].participants.Valid()
  {
    if keys == [] then []
    else
      var rest := ScreenShares(rooms, keys[1..]);
      var parts := rooms.vals[keys[0]].participants;
      assert parts.Valid();
      var sharers := Sharers(parts, parts.keys);
      if sharers != [] then [(keys[0], sharers)] + rest else rest
  }

  /**
   * `getScreenShareChannels` lists a channel exactly when someone in it shares a
   * screen, together with exactly the sharing participants.
   */
  lemma {:induction false} ScreenSharesExact(rooms: OMap<string, Room>, keys: seq<string>, c: string, sharers: seq<string>)
    requires forall c :: c in keys ==> c in rooms.vals && rooms.vals[c].participants.Valid()
    requires Distinct(keys)
    ensures (c, sharers) in ScreenShares(rooms, keys) ==>
      c in keys && sharers != [] &&
      forall k :: k in sharers <==> k in rooms.vals[c].participants.vals && SharesScreen(rooms.vals[c].participants.vals[k])
    ensures c in keys && (exists k :: k in rooms.vals[c].participants.vals && SharesScreen(rooms.vals[c].participants.vals[k])) ==>
      exists s :: (c, s) in ScreenShares(rooms, keys)
  {
    if keys != [] {
      ScreenSharesExact(rooms, keys[1..], c, sharers);
      assert forall k :: k in keys <==> k == keys[0] || k in keys[1..];
      var parts := rooms.vals[keys[0]].participants;
      var s := Sharers(parts, parts.keys);
      if c == keys[0] && exists k :: k in parts.vals && SharesScreen(parts.vals[k]) {
        var k :| k in parts.vals && SharesScreen(parts.vals[k]);
        assert k in s;
        assert (c, s) in ScreenShares(rooms, keys);
      }
      DistinctTail(keys);
    }
  }

  /** Whether room `c` exists and has participant `k`. */
  predicate HasParticipant(rooms: OMap<string, Room>, c: string, k: string) {
    c in rooms.vals && k in rooms.vals[c].participants.vals
  }

  /** The maps of a registered participant and of its room are well formed. */
  lemma ParticipantShape(rooms: OMap<string, Room>, owner: map<string, Slot>, closed: set<string>, c: string, k: string)
    requires RoomsOk(rooms, owner, closed) && HasParticipant(rooms, c, k)
    ensures rooms.vals[c].participants.Valid()
    ensures rooms.vals[c].participants.vals[k].producers.Valid() && rooms.vals[c].participants.vals[k].consumers.Valid()
  {
    assert RoomOk(rooms.vals[c], c, owner, closed);
    assert ParticipantOk(rooms.vals[c].participants.vals[k], c, k, owner, closed);
  }

  /** The rooms with participant `k` of room `c` replaced by `p`. */
  function WithParticipant(rooms: OMap<string, Room>, c: string, k: string, p: Participant): OMap<string, Room>
    requires rooms.Valid() && c in rooms.vals && rooms.vals[c].participants.Valid()
  {
    rooms.Put(c, rooms.vals[c].(participants := rooms.vals[c].participants.Put(k, p)))
  }

  /** Replacing a participant by a sound one keeps every room sound. */
  lemma PutParticipantOk(rooms: OMap<string, Room>, owner: map<string, Slot>, closed: set<string>,
                         c: string, k: string, p: Participant)
    requires RoomsOk(rooms, owner, closed) && c in rooms.vals
    requires ParticipantOk(p, c, k, owner, closed)
    ensures rooms.vals[c].participants.Valid()
    ensures RoomsOk(WithParticipant(rooms, c, k, p), owner, closed)
  {
    assert RoomOk(rooms.vals[c], c, owner, closed);
    var after := WithParticipant(rooms, c, k, p);
    forall c2 | c2 in after.vals
      ensures RoomOk(after.vals[c2], c2, owner, closed)
    {
      assert RoomOk(rooms.vals[c2], c2, owner, closed);
    }
  }

  /** Registering a fresh handle for a slot of participant `k` keeps it and every room sound. */
  lemma AddHandleOk(rooms: OMap<string, Room>, owner: map<string, Slot>, closed: set<string>,
                    c: string, k: string, h: string, slot: Slot)
    requires RoomsOk(rooms, owner, closed) && HasParticipant(rooms, c, k) && FreshIn(h, owner, closed)
    ensures RoomsOk(rooms, owner[h := slot], closed)
    ensures ParticipantOk(rooms.vals[c].participants.vals[k], c, k, owner[h := slot], closed)
    ensures Owned(h, slot, owner[h := slot], closed)
  {
    AddOwnerKeeps(rooms, owner, closed, h, slot);
    assert RoomOk(rooms.vals[c], c, owner[h := slot], closed);
  }

  /** The participant with the new transport in the given direction. */
  function WithTransport(p: Participant, direction: Direction, t: string): Participant {
    if direction == Send then p.(sendTransport := Some(t)) else p.(recvTransport := Some(t))
  }

  /** `connectTransport`'s choice: the send transport if its id matches, else the receive transport if that one's does. */
  function SelectTransport(rooms: OMap<string, Room>, c: string, k: string, transportId: string): (r: Result<Direction, RoomError>)
    ensures r.Ok? ==> HasParticipant(rooms, c, k)
    ensures r == Ok(Send) ==> rooms.vals[c].participants.vals[k].sendTransport == Some(transportId)
    ensures r == Ok(Recv) ==> rooms.vals[c].participants.vals[k].recvTransport == Some(transportId)
    ensures r == Err(TransportNotFound) <==> (HasParticipant(rooms, c, k)
      && rooms.vals[c].participants.vals[k].sendTransport != Some(transportId)
      && rooms.vals[c].participants.vals[k].recvTransport != Some(transportId))
  {
    if c !in rooms.vals then Err(RoomNotFound)
    else if k !in rooms.vals[c].participants.vals then Err(ParticipantNotFound)
    else
      var p := rooms.vals[c].participants.vals[k];
      if p.sendTransport == Some(transportId) then Ok(Send)
      else if p.recvTransport == Some(transportId) then Ok(Recv)
      else Err(TransportNotFound)
  }

  /** The transport `connectTransport` picks is a live transport of the caller in that direction. */
  lemma SelectedIsLive(rooms: OMap<string, Room>, owner: map<string, Slot>, closed: set<string>,
                       c: string, k: string, transportId: string)
    requires RoomsOk(rooms, owner, closed)
    ensures SelectTransport(rooms, c, k, transportId) == Ok(Send) ==> Owned(transportId, SendOf(c, k), owner, closed)
    ensures SelectTransport(rooms, c, k, transportId) == Ok(Recv) ==> Owned(transportId, RecvOf(c, k), owner, closed)
  {
    if HasParticipant(rooms, c, k) {
      assert RoomOk(rooms.vals[c], c, owner, closed);
      assert ParticipantOk(rooms.vals[c].participants.vals[k], c, k, owner, closed);
    }
  }

  /** A transport just created for a direction is the one connecting its id picks. */
  lemma CreatedThenSelected(rooms: OMap<string, Room>, owner: map<string, Slot>, closed: set<string>,
                            c: string, k: string, direction: Direction, t: string)
    requires RoomsOk(rooms, owner, closed) && HasParticipant(rooms, c, k) && FreshIn(t, owner, closed)
    ensures rooms.vals[c].participants.Valid()
    ensures SelectTransport(WithParticipant(rooms, c, k, WithTransport(rooms.vals[c].participants.vals[k], direction, t)),
                            c, k, t) == Ok(direction)
  {
    assert RoomOk(rooms.vals[c], c, owner, closed);
    assert ParticipantOk(rooms.vals[c].participants.vals[k], c, k, owner, closed);
  }

  /**
   * What `createProducer(c, k, kind, producerKind)` returns and leaves behind, given
   * the engine's new producer: an error, with nothing changed, for a missing room,
   * a missing participant, a participant without a send transport, or an engine
   * failure; otherwise the producer's id, filed under the caller.
   */
  function Produce(rooms: OMap<string, Room>, c: string, k: string, kind: MediaKind, producerKind: ProducerKind,
                   producer: Option<string>): (out: (Result<string, RoomError>, OMap<string, Room>))
    requires Shaped(rooms)
    ensures out.0 == Err(RoomNotFound) <==> c !in rooms.vals
    ensures out.0 == Err(ParticipantNotFound) <==> c in rooms.vals && !HasParticipant(rooms, c, k)
    ensures out.0 == Err(NoSendTransport) <==>
      HasParticipant(rooms, c, k) && rooms.vals[c].participants.vals[k].sendTransport.None?
    ensures out.0.Ok? <==>
      HasParticipant(rooms, c, k) && rooms.vals[c].participants.vals[k].sendTransport.Some? && producer.Some?
    ensures out.0.Ok? ==> (out.0.value == producer.value && HasParticipant(out.1, c, k)
      && out.1.vals[c].participants.vals[k].producers.vals
         == rooms.vals[c].participants.vals[k].producers.vals[producer.value := ProducerInfo(kind, producerKind)])
    ensures out.0.Err? ==> out.1 == rooms
  {
    if c !in rooms.vals then (Err(RoomNotFound), rooms)
    else if k !in rooms.vals[c].participants.vals then (Err(ParticipantNotFound), rooms)
    else
      var p := rooms.vals[c].participants.vals[k];
      if p.sendTransport.None? then (Err(NoSendTransport), rooms)
      else if producer.None? then (Err(EngineFailed), rooms)
      else
        (Ok(producer.value),
         WithParticipant(rooms, c, k, p.(producers := p.producers.Put(producer.value, ProducerInfo(kind, producerKind)))))
  }

  /** The handle owners after `createProducer`: the new producer is registered when one was filed. */
  function ProduceOwner(owner: map<string, Slot>, c: string, k: string, r: Result<string, RoomError>): map<string, Slot> {
    if r.Ok? then owner[r.value := ProducerOf(c, k)] else owner
  }

  /** `createProducer` keeps the bookkeeping sound. */
  lemma ProduceOk(rooms: OMap<string, Room>, owner: map<string, Slot>, closed: set<string>,
                  c: string, k: string, kind: MediaKind, producerKind: ProducerKind, producer: Option<string>)
    requires RoomsOk(rooms, owner, closed)
    requires producer.Some? ==> FreshIn(producer.value, owner, closed)
    ensures Shaped(rooms)
    ensures var out := Produce(rooms, c, k, kind, producerKind, producer);
      RoomsOk(out.1, ProduceOwner(owner, c, k, out.0), closed)
  {
    OkShaped(rooms, owner, closed);
    if HasParticipant(rooms, c, k) && rooms.vals[c].participants.vals[k].sendTransport.Some? && producer.Some? {
      AddProducerOk(rooms, owner, closed, c, k, producer.value, ProducerInfo(kind, producerKind));
    }
  }

  /** Filing a fresh producer under participant `k` keeps the bookkeeping sound. */
  lemma AddProducerOk(rooms: OMap<string, Room>, owner: map<string, Slot>, closed: set<string>,
                      c: string, k: string, id: string, info: ProducerInfo)
    requires RoomsOk(rooms, owner, closed) && HasParticipant(rooms, c, k) && FreshIn(id, owner, closed)
    ensures rooms.vals[c].participants.Valid() && rooms.vals[c].participants.vals[k].producers.Valid()
    ensures var p := rooms.vals[c].participants.vals[k];
      RoomsOk(WithParticipant(rooms, c, k, p.(producers := p.producers.Put(id, info))), owner[id := ProducerOf(c, k)], closed)
  {
    var p := rooms.vals[c].participants.vals[k];
    var owner' := owner[id := ProducerOf(c, k)];
    AddHandleOk(rooms, owner, closed, c, k, id, ProducerOf(c, k));
    var p' := p.(producers := p.producers.Put(id, info));
    assert ParticipantOk(p', c, k, owner', closed);
    PutParticipantOk(rooms, owner', closed, c, k, p');
  }

  /** A producer `createProducer` files is the one `createConsumer`'s search then finds, under its owner. */
  lemma ProducedIsFound(rooms: OMap<string, Room>, owner: map<string, Slot>, closed: set<string>,
                        c: string, k: string, kind: MediaKind, producerKind: ProducerKind, producer: Option<string>)
    requires RoomsOk(rooms, owner, closed)
    requires producer.Some? ==> FreshIn(producer.value, owner, closed)
    ensures Shaped(rooms)
    ensures var out := Produce(rooms, c, k, kind, producerKind, producer);
      out.0.Ok? ==> FindProducer(out.1.vals[c].participants, out.1.vals[c].participants.keys, out.0.value)
                      == Some((k, ProducerInfo(kind, producerKind)))
  {
    ProduceOk(rooms, owner, closed, c, k, kind, producerKind, producer);
    var out := Produce(rooms, c, k, kind, producerKind, producer);
    if out.0.Ok? {
      var owner' := ProduceOwner(owner, c, k, out.0);
      assert RoomOk(out.1.vals[c], c, owner', closed);
      FoundIsHolder(out.1.vals[c], c, owner', closed, k, out.0.value);
    }
  }

  /** With the producer ids of a room held once, the search finds exactly the holder. */
  lemma FoundIsHolder(room: Room, c: string, owner: map<string, Slot>, closed: set<string>, k: string, producerId: string)
    requires RoomOk(room, c, owner, closed)
    requires k in room.participants.vals && producerId in room.participants.vals[k].producers.vals
    ensures FindProducer(room.participants, room.participants.keys, producerId)
      == Some((k, room.participants.vals[k].producers.vals[producerId]))
  {
    var found := FindProducer(room.participants, room.participants.keys, producerId);
    assert found.Some? by {
      assert k in room.participants.keys;
    }
    ProducerOwnerUnique(room, c, owner, closed, found.value.0, k, producerId);
  }

  /** What `createConsumer` returns on success. */
  datatype Consumed = Consumed(consumerId: string, producerId: string, kind: MediaKind, producerKind: ProducerKind,
                               producerPublicKey: string)

  /** The participant with producer `producerId` closed and dropped. */
  function WithoutProducer(p: Participant, producerId: string): Participant
    requires p.producers.Valid()
  {
    p.(producers := p.producers.Remove(producerId))
  }

  /** Closing a producer keeps the bookkeeping sound. */
  lemma CloseProducerOk(rooms: OMap<string, Room>, owner: map<string, Slot>, closed: set<string>,
                        c: string, k: string, producerId: string)
    requires RoomsOk(rooms, owner, closed)
    ensures Shaped(rooms)
    ensures var out := CloseOutcome(rooms, c, k, producerId);
      RoomsOk(out.1, owner, closed + (if out.0.Some? then {producerId} else {}))
  {
    OkShaped(rooms, owner, closed);
    if CloseOutcome(rooms, c, k, producerId).0.Some? {
      CloseHeldProducerOk(rooms, owner, closed, c, k, producerId);
    }
  }

  lemma CloseHeldProducerOk(rooms: OMap<string, Room>, owner: map<string, Slot>, closed: set<string>,
                            c: string, k: string, producerId: string)
    requires RoomsOk(rooms, owner, closed) && HasParticipant(rooms, c, k)
    requires producerId in rooms.vals[c].participants.vals[k].producers.vals
    ensures rooms.vals[c].participants.Valid() && rooms.vals[c].participants.vals[k].producers.Valid()
    ensures RoomsOk(WithParticipant(rooms, c, k, WithoutProducer(rooms.vals[c].participants.vals[k], producerId)),
                    owner, closed + {producerId})
  {
    var room := rooms.vals[c];
    assert RoomOk(room, c, owner, closed);
    var p := room.participants.vals[k];
    assert ParticipantOk(p, c, k, owner, closed);
    CloseKeeps(rooms, owner, closed, {producerId}, c, k, false);
    var p' := WithoutProducer(p, producerId);
    assert ParticipantOk(p', c, k, owner, closed + {producerId});
    KeptParticipantOk(rooms, owner, closed + {producerId}, c, k, p');
  }

  /** Once closed, a producer is held by no one in the room: consuming it finds nothing. */
  lemma ClosedProducerGone(room: Room, c: string, owner: map<string, Slot>, closed: set<string>,
                           k: string, producerId: string)
    requires RoomOk(room, c, owner, closed) && k in room.participants.vals
    requires producerId in room.participants.vals[k].producers.vals
    ensures room.participants.vals[k].producers.Valid()
    ensures var parts := room.participants.Put(k, WithoutProducer(room.participants.vals[k], producerId));
      FindProducer(parts, parts.keys, producerId).None?
  {
    assert ParticipantOk(room.participants.vals[k], c, k, owner, closed);
    var parts := room.participants.Put(k, WithoutProducer(room.participants.vals[k], producerId));
    forall k2 | k2 in parts.keys
      ensures producerId !in parts.vals[k2].producers.vals
    {
      if k2 != k {
        ProducerNotElsewhere(room, c, owner, closed, k, k2, producerId);
      }
    }
  }

  /** A producer id held by participant `k` is held by no other participant of the room. */
  lemma ProducerNotElsewhere(room: Room, c: string, owner: map<string, Slot>, closed: set<string>,
                             k: string, k2: string, producerId: string)
    requires RoomOk(room, c, owner, closed)
    requires k in room.participants.vals && producerId in room.participants.vals[k].producers.vals
    requires k2 in room.participants.vals && k2 != k
    ensures producerId !in room.participants.vals[k2].producers.vals
  {
    if producerId in room.participants.vals[k2].producers.vals {
      ProducerOwnerUnique(room, c, owner, closed, k, k2, producerId);
    }
  }

  /** Replacing participant `k` after its own handles changed keeps every room sound. */
  lemma KeptParticipantOk(rooms: OMap<string, Room>, owner: map<string, Slot>, closed: set<string>,
                          c: string, k: string, p: Participant)
    requires rooms.Valid() && c in rooms.vals
    requires forall c2 :: c2 in rooms.vals ==> (rooms.vals[c2].channelId == c2
      && rooms.vals[c2].participants.Valid() && Owned(rooms.vals[c2].router, RouterOf(c2), owner, closed))
    requires forall c2, k2 :: c2 in rooms.vals && k2 in rooms.vals[c2].participants.vals && (c2 != c || k2 != k) ==>
      ParticipantOk(rooms.vals[c2].participants.vals[k2], c2, k2, owner, closed)
    requires ParticipantOk(p, c, k, owner, closed)
    ensures RoomsOk(WithParticipant(rooms, c, k, p), owner, closed)
  {
    var after := WithParticipant(rooms, c, k, p);
    assert RoomOk(after.vals[c], c, owner, closed);
  }

  /**
   * After `removeParticipant(c, k)` the participant is gone with all its handles
   * closed, the other participants are as they were, the room is unregistered
   * exactly when no one else was in it, and other rooms are untouched.
   */
  lemma RemoveParticipantEffect(rooms: OMap<string, Room>, closed: set<string>, c: string, k: string)
    requires rooms.Valid() && c in rooms.vals && rooms.vals[c].participants.Valid()
    ensures var parts := rooms.vals[c].participants;
      var after := RoomsAfterRemove(rooms, c, k);
      var closed' := ClosedAfterRemove(rooms, closed, c, k);
      && closed <= closed'
      && (k in parts.vals ==> HandlesOf(parts.vals[k]) <= closed')
      && (c !in after.vals <==> forall k2 :: k2 in parts.vals ==> k2 == k)
      && (c !in after.vals ==> rooms.vals[c].router in closed')
      && (c in after.vals ==> after.vals[c].participants.vals == parts.vals - {k})
      && (forall c2 :: c2 != c ==> (c2 in after.vals <==> c2 in rooms.vals))
      && (forall c2 :: c2 != c && c2 in after.vals ==> after.vals[c2] == rooms.vals[c2])
  {
    var parts := rooms.vals[c].participants;
    var kept := parts.Remove(k);
    if kept.keys == [] {
      forall k2 | k2 in parts.vals
        ensures k2 == k
      {
        assert k2 !in kept.vals;
      }
    } else {
      assert kept.keys[0] in kept.vals;
    }
  }

  /** Every room's participant map, and every participant's producer and consumer maps, are well formed. */
  ghost predicate Shaped(rooms: OMap<string, Room>) {
    rooms.Valid()
    && forall c :: c in rooms.vals ==> (rooms.vals[c].participants.Valid()
      && forall k :: k in rooms.vals[c].participants.vals ==>
        rooms.vals[c].participants.vals[k].producers.Valid() && rooms.vals[c].participants.vals[k].consumers.Valid())
  }

  lemma OkShaped(rooms: OMap<string, Room>, owner: map<string, Slot>, closed: set<string>)
    requires RoomsOk(rooms, owner, closed)
    ensures Shaped(rooms)
  {
    forall c | c in rooms.vals
      ensures rooms.vals[c].participants.Valid()
        && forall k :: k in rooms.vals[c].participants.vals ==>
          rooms.vals[c].participants.vals[k].producers.Valid() && rooms.vals[c].participants.vals[k].consumers.Valid()
    {
      assert RoomOk(rooms.vals[c], c, owner, closed);
    }
  }

  /**
   * What `createConsumer(c, k, producerId)` returns and leaves behind, given the
   * router's `canConsume` verdict and the engine's new consumer. It returns `null`
   * and changes nothing unless the caller has a receive transport, someone in the
   * room holds the producer and the router can consume it; then a consumer of the
   * producer's kind is filed under the caller.
   */
  function Consume(rooms: OMap<string, Room>, c: string, k: string, producerId: string, canConsume: bool,
                   consumer: Option<string>): (out: (Result<Option<Consumed>, RoomError>, OMap<string, Room>))
    requires Shaped(rooms)
    ensures out.0 != Ok(None) ==> (HasParticipant(rooms, c, k)
      && rooms.vals[c].participants.vals[k].recvTransport.Some? && canConsume)
    ensures out.0.Err? <==> out.0 == Err(EngineFailed) && consumer.None?
    ensures out.0.Ok? && out.0.value.Some? ==>
      var x := out.0.value.value;
      var parts := rooms.vals[c].participants;
      var p := parts.vals[k];
      && consumer == Some(x.consumerId) && x.producerId == producerId
      && x.producerPublicKey in parts.vals && producerId in parts.vals[x.producerPublicKey].producers.vals
      && parts.vals[x.producerPublicKey].producers.vals[producerId] == ProducerInfo(x.kind, x.producerKind)
      && out.1 == WithParticipant(rooms, c, k, p.(consumers := p.consumers.Put(x.consumerId, x.kind)))
    ensures !(out.0.Ok? && out.0.value.Some?) ==> out.1 == rooms
  {
    var found := if HasParticipant(rooms, c, k)
      then FindProducer(rooms.vals[c].participants, rooms.vals[c].participants.keys, producerId) else None;
    ConsumeFound(rooms, c, k, producerId, found, canConsume, consumer)
  }

  /** `createConsumer` once the search for the producer's holder gave `found`. */
  function ConsumeFound(rooms: OMap<string, Room>, c: string, k: string, producerId: string,
                        found: Option<(string, ProducerInfo)>, canConsume: bool, consumer: Option<string>)
    : (Result<Option<Consumed>, RoomError>, OMap<string, Room>)
    requires Shaped(rooms)
  {
    if !HasParticipant(rooms, c, k) then (Ok(None), rooms)
    else
      var p := rooms.vals[c].participants.vals[k];
      if p.recvTransport.None? || found.None? || !canConsume then (Ok(None), rooms)
      else if consumer.None? then (Err(EngineFailed), rooms)
      else
        var info := found.value.1;
        (Ok(Some(Consumed(consumer.value, producerId, info.kind, info.producerKind, found.value.0))),
         WithParticipant(rooms, c, k, p.(consumers := p.consumers.Put(consumer.value, info.kind))))
  }

  /** `createConsumer` returns a consumer exactly when someone in the room holds the producer (and the rest allows). */
  lemma ConsumeFindsHolder(rooms: OMap<string, Room>, owner: map<string, Slot>, closed: set<string>,
                           c: string, k: string, producerId: string, consumer: string, holder: string)
    requires RoomsOk(rooms, owner, closed) && HasParticipant(rooms, c, k)
    requires rooms.vals[c].participants.vals[k].recvTransport.Some?
    requires holder in rooms.vals[c].participants.vals && producerId in rooms.vals[c].participants.vals[holder].producers.vals
    ensures Shaped(rooms)
    ensures var info := rooms.vals[c].participants.vals[holder].producers.vals[producerId];
      Consume(rooms, c, k, producerId, true, Some(consumer)).0
        == Ok(Some(Consumed(consumer, producerId, info.kind, info.producerKind, holder)))
  {
    OkShaped(rooms, owner, closed);
    FoundIsHolder(rooms.vals[c], c, owner, closed, holder, producerId);
  }

  /** The handle owners after `createConsumer`: the new consumer is registered when one was filed. */
  function ConsumeOwner(owner: map<string, Slot>, c: string, k: string, r: Result<Option<Consumed>, RoomError>)
    : map<string, Slot>
  {
    if r.Ok? && r.value.Some? then owner[r.value.value.consumerId := ConsumerOf(c, k)] else owner
  }

  /** `createConsumer` keeps the bookkeeping sound. */
  lemma ConsumeOk(rooms: OMap<string, Room>, owner: map<string, Slot>, closed: set<string>,
                  c: string, k: string, producerId: string, canConsume: bool, consumer: Option<string>)
    requires RoomsOk(rooms, owner, closed)
    requires consumer.Some? ==> FreshIn(consumer.value, owner, closed)
    ensures Shaped(rooms)
    ensures var out := Consume(rooms, c, k, producerId, canConsume, consumer);
      RoomsOk(out.1, ConsumeOwner(owner, c, k, out.0), closed)
  {
    OkShaped(rooms, owner, closed);
    var out := Consume(rooms, c, k, producerId, canConsume, consumer);
    if out.0.Ok? && out.0.value.Some? {
      var cid := consumer.value;
      var owner' := owner[cid := ConsumerOf(c, k)];
      AddHandleOk(rooms, owner, closed, c, k, cid, ConsumerOf(c, k));
      var p := rooms.vals[c].participants.vals[k];
      var p' := p.(consumers := p.consumers.Put(cid, out.0.value.value.kind));
      assert ParticipantOk(p', c, k, owner', closed);
      PutParticipantOk(rooms, owner', closed, c, k, p');
    }
  }

  /**
   * What `closeProducer(c, k, producerId)` returns and leaves behind: the producer's
   * info with the producer dropped from the caller, or `null` with nothing changed
   * when the caller holds no such producer.
   */
  function CloseOutcome(rooms: OMap<string, Room>, c: string, k: string, producerId: string)
    : (out: (Option<ProducerInfo>, OMap<string, Room>))
    requires Shaped(rooms)
    ensures out.0.Some? <==> HasParticipant(rooms, c, k) && producerId in rooms.vals[c].participants.vals[k].producers.vals
    ensures out.0.Some? ==>
      var p := rooms.vals[c].participants.vals[k];
      && out.0.value == p.producers.vals[producerId]
      && out.1 == WithParticipant(rooms, c, k, WithoutProducer(p, producerId))
      && out.1.vals[c].participants.vals[k].producers.vals == p.producers.vals - {producerId}
    ensures out.0.None? ==> out.1 == rooms
  {
    if HasParticipant(rooms, c, k) && producerId in rooms.vals[c].participants.vals[k].producers.vals then
      var p := rooms.vals[c].participants.vals[k];
      (Some(p.producers.vals[producerId]), WithParticipant(rooms, c, k, WithoutProducer(p, producerId)))
    else (None, rooms)
  }

  /** The voice rooms and the fate of every media handle. */
  class VoiceRooms {
    var rooms: OMap<string, Room>
    var closed: set<string>
    ghost var owner: map<string, Slot>

    ghost predicate Valid()
      reads this
    {
      RoomsOk(rooms, owner, closed)
    }

    ghost predicate Fresh(h: string)
      reads this
    {
      FreshIn(h, owner, closed)
    }

    constructor ()
      ensures Valid() && rooms == Empty() && closed == {}
    {
      rooms := Empty();
      closed := {};
      owner := map[];
    }

    /** `getRoom`. */
    function GetRoom(channelId: string): (r: Option<Room>)
      reads this
      requires Valid()
      ensures r.Some? <==> channelId in rooms.vals
      ensures r.Some? ==> r.value == rooms.vals[channelId] && r.value.participants.Valid()
    {
      if channelId in rooms.vals then Some(rooms.vals[channelId]) else None
    }

    /**
     * `getOrCreateRoom`: the existing room unchanged, or a new empty room around the
     * router the engine created (`None` when router creation failed).
     */
    method GetOrCreateRoom(channelId: string, router: Option<string>) returns (r: Result<Room, RoomError>)
      requires Valid()
      requires router.Some? ==> Fresh(router.value)
      modifies this`rooms, this`owner
      ensures Valid()
      ensures channelId in old(rooms.vals) ==>
        r == Ok(old(rooms.vals[channelId])) && rooms == old(rooms) && owner == old(owner)
      ensures channelId !in old(rooms.vals) && router.None? ==>
        r == Err(EngineFailed) && rooms == old(rooms) && owner == old(owner)
      ensures channelId !in old(rooms.vals) && router.Some? ==>
        r == Ok(Room(channelId, router.value, Empty()))
        && rooms == old(rooms).Put(channelId, Room(channelId, router.value, Empty()))
      ensures r.Ok? ==> channelId in rooms.vals && rooms.vals[channelId] == r.value
    {
      if channelId in rooms.vals {
        r := Ok(rooms.vals[channelId]);
      } else if router.None? {
        r := Err(EngineFailed);
      } else {
        var room := Room(channelId, router.value, Empty());
        AddOwnerKeeps(rooms, owner, closed, router.value, RouterOf(channelId));
        owner := owner[router.value := RouterOf(channelId)];
        rooms := rooms.Put(channelId, room);
        r := Ok(room);
      }
    }

    /** `room.participants.set(publicKey, …)` in the voice-join handler: a new, empty participant. */
    method SetParticipant(channelId: string, publicKey: string, name: string, ws: Connections.Socket)
      requires Valid() && channelId in rooms.vals
      modifies this`rooms
      ensures Valid()
      ensures old(rooms.vals[channelId]).participants.Valid()
      ensures rooms == WithParticipant(old(rooms), channelId, publicKey, NewParticipant(publicKey, name, ws))
    {
      PutParticipantOk(rooms, owner, closed, channelId, publicKey, NewParticipant(publicKey, name, ws));
      rooms := WithParticipant(rooms, channelId, publicKey, NewParticipant(publicKey, name, ws));
    }

    /**
     * `removeParticipant`: close all of the participant's handles and drop it; a room
     * left empty has its router closed and is unregistered (even when the key was
     * not a participant). A missing room is left alone.
     */
    method RemoveParticipant(channelId: string, publicKey: string)
      requires Valid()
      modifies this`rooms, this`closed
      ensures Valid()
      ensures channelId !in old(rooms.vals) ==> rooms == old(rooms) && closed == old(closed)
      ensures channelId in old(rooms.vals) ==>
        old(rooms.vals[channelId]).participants.Valid()
        && rooms == RoomsAfterRemove(old(rooms), channelId, publicKey)
        && closed == ClosedAfterRemove(old(rooms), old(closed), channelId, publicKey)
    {
      if channelId in rooms.vals {
        RemoveKeepsOk(rooms, owner, closed, channelId, publicKey);
        closed := ClosedAfterRemove(rooms, closed, channelId, publicKey);
        rooms := RoomsAfterRemove(rooms, channelId, publicKey);
      }
    }

    /** `getRoomParticipantList`: the room's participants in join order; none for a missing room. */
    function ParticipantList(channelId: string): (r: seq<ParticipantSummary>)
      reads this
      requires Valid()
      ensures channelId !in rooms.vals ==> r == []
      ensures channelId in rooms.vals ==> (|r| == rooms.vals[channelId].participants.Size()
        && forall i :: 0 <= i < |r| ==> r[i].publicKey == rooms.vals[channelId].participants.keys[i])
    {
      if channelId in rooms.vals then
        var room := rooms.vals[channelId];
        assert RoomOk(room, channelId, owner, closed);
        assert forall i :: 0 <= i < |room.participants.keys| ==>
          ParticipantOk(room.participants.vals[room.participants.keys[i]], channelId, room.participants.keys[i], owner, closed);
        Summaries(room.participants)
      else []
    }

    /** `getOtherProducers`: the producers of everyone in the room but `exclude`. */
    function OtherProducersIn(channelId: string, exclude: string): seq<ProducerListing>
      reads this
      requires Valid()
    {
      if channelId in rooms.vals then
        var room := rooms.vals[channelId];
        assert RoomOk(room, channelId, owner, closed);
        assert forall k :: k in room.participants.keys ==> ParticipantOk(room.participants.vals[k], channelId, k, owner, closed);
        OtherProducers(room.participants, room.participants.keys, exclude)
      else []
    }

    /** `getAllVoiceParticipants`. */
    function AllVoiceParticipants(): seq<(string, seq<ParticipantSummary>)>
      reads this
      requires Valid()
    {
      assert forall c :: c in rooms.keys ==> RoomOk(rooms.vals[c], c, owner, closed);
      VoiceParticipants(rooms, rooms.keys)
    }

    /** `getScreenShareChannels`. */
    function ScreenShareChannels(): seq<(string, seq<string>)>
      reads this
      requires Valid()
    {
      assert forall c :: c in rooms.keys ==> RoomOk(rooms.vals[c], c, owner, closed);
      ScreenShares(rooms, rooms.keys)
    }

    /**
     * `createTransport`: a new transport (`None` when the engine failed) becomes the
     * participant's transport for the direction, replacing any previous one.
     */
    method CreateTransport(channelId: string, publicKey: string, direction: Direction, transport: Option<string>)
      returns (r: Result<string, RoomError>)
      requires Valid()
      requires transport.Some? ==> Fresh(transport.value)
      modifies this`rooms, this`owner
      ensures Valid()
      ensures channelId !in old(rooms.vals) ==> r == Err(RoomNotFound) && rooms == old(rooms)
      ensures channelId in old(rooms.vals) && !HasParticipant(old(rooms), channelId, publicKey) ==>
        r == Err(ParticipantNotFound) && rooms == old(rooms)
      ensures HasParticipant(old(rooms), channelId, publicKey) && transport.None? ==>
        r == Err(EngineFailed) && rooms == old(rooms)
      ensures HasParticipant(old(rooms), channelId, publicKey) && transport.Some? ==>
        old(rooms.vals[channelId]).participants.Valid()
        && r == Ok(transport.value)
        && rooms == WithParticipant(old(rooms), channelId, publicKey,
             WithTransport(old(rooms.vals[channelId].participants.vals[publicKey]), direction, transport.value))
    {
      if channelId !in rooms.vals {
        r := Err(RoomNotFound);
      } else if publicKey !in rooms.vals[channelId].participants.vals {
        r := Err(ParticipantNotFound);
      } else if transport.None? {
        r := Err(EngineFailed);
      } else {
        var t := transport.value;
        var slot := if direction == Send then SendOf(channelId, publicKey) else RecvOf(channelId, publicKey);
        var p' := WithTransport(rooms.vals[channelId].participants.vals[publicKey], direction, t);
        AddHandleOk(rooms, owner, closed, channelId, publicKey, t, slot);
        owner := owner[t := slot];
        PutParticipantOk(rooms, owner, closed, channelId, publicKey, p');
        rooms := WithParticipant(rooms, channelId, publicKey, p');
        r := Ok(t);
      }
    }

    /**
     * `createProducer`: a new producer (`None` when the engine failed) on the
     * participant's send transport, filed under its id.
     */
    method CreateProducer(channelId: string, publicKey: string, kind: MediaKind, producerKind: ProducerKind,
                          producer: Option<string>)
      returns (r: Result<string, RoomError>)
      requires Valid()
      requires producer.Some? ==> Fresh(producer.value)
      modifies this`rooms, this`owner
      ensures Valid()
      ensures Shaped(old(rooms)) && (r, rooms) == Produce(old(rooms), channelId, publicKey, kind, producerKind, producer)
    {
      ProduceOk(rooms, owner, closed, channelId, publicKey, kind, producerKind, producer);
      var out := Produce(rooms, channelId, publicKey, kind, producerKind, producer);
      owner := ProduceOwner(owner, channelId, publicKey, out.0);
      r, rooms := out.0, out.1;
    }

    /** `createConsumer`, with the engine's verdict `canConsume` and new consumer (`None` when it failed). */
    method CreateConsumer(channelId: string, publicKey: string, producerId: string, canConsume: bool,
                          consumer: Option<string>)
      returns (r: Result<Option<Consumed>, RoomError>)
      requires Valid()
      requires consumer.Some? ==> Fresh(consumer.value)
      modifies this`rooms, this`owner
      ensures Valid()
      ensures Shaped(old(rooms)) && (r, rooms) == Consume(old(rooms), channelId, publicKey, producerId, canConsume, consumer)
    {
      ConsumeOk(rooms, owner, closed, channelId, publicKey, producerId, canConsume, consumer);
      var found: Option<(string, ProducerInfo)> := None;
      if channelId in rooms.vals && publicKey in rooms.vals[channelId].participants.vals {
        var parts := rooms.vals[channelId].participants;
        found := SearchProducer(parts, parts.keys, producerId);
      }
      var out := ConsumeFound(rooms, channelId, publicKey, producerId, found, canConsume, consumer);
      owner := ConsumeOwner(owner, channelId, publicKey, out.0);
      r, rooms := out.0, out.1;
    }

    /** `closeProducer`: the closed producer's info, or `null` when there is none to close. */
    method CloseProducer(channelId: string, publicKey: string, producerId: string) returns (r: Option<ProducerInfo>)
      requires Valid()
      modifies this`rooms, this`closed
      ensures Valid()
      ensures Shaped(old(rooms)) && (r, rooms) == CloseOutcome(old(rooms), channelId, publicKey, producerId)
      ensures closed == old(closed) + (if r.Some? then {producerId} else {})
    {
      CloseProducerOk(rooms, owner, closed, channelId, publicKey, producerId);
      var out := CloseOutcome(rooms, channelId, publicKey, producerId);
      if out.0.Some? {
        closed := closed + {producerId};
      }
      r, rooms := out.0, out.1;
    }
  }
}
