/**
 * The chat handlers: `realm:join`, `channel:join`, `channel:fetch-history`,
 * `channel:message`, `channel:typing` and `dm:open`. A handler that throws reports
 * it in `threw`; the message entry point answers that with `INVALID_MESSAGE`.
 */
module ChatHandlers {
  import opened Wrappers
  import opened Protocol
  import opened Config
  import opened Sequences
  import opened OrderedMaps
  import opened Connections
  import opened Tables
  import opened Channels
  import opened Messages
  import opened Profiles
  import opened Realm
  import opened Invites
  import opened Server

  // ---------------------------------------------------------------------------
  // realm:join

  /**
   * The member cap as `handleRealmJoin` tests it: the authenticated connections,
   * the caller's own record included, already number `maxMembers`.
   */
  predicate RefusedAsWritten(cfg: ServerConfig, all: seq<Conn>) {
    cfg.maxMembers > 0 && |AuthenticatedConnections(all)| >= cfg.maxMembers
  }

  /** The member cap as intended: the members other than the caller already fill it. */
  predicate Refused(cfg: ServerConfig, all: seq<Conn>, ws: Socket) {
    cfg.maxMembers > 0 && |OtherMembers(all, ws)| >= cfg.maxMembers
  }

  /** Every record of the list is filed under a different socket. */
  ghost predicate DistinctSockets(all: seq<Conn>) {
    forall i, j :: 0 <= i < j < |all| ==> all[i].ws != all[j].ws
  }

  /**
   * When the caller's record is a member, the authenticated connections are the
   * other members and the caller.
   */
  lemma {:induction false} MembersCountCaller(all: seq<Conn>, ws: Socket, k: int)
    requires DistinctSockets(all)
    requires 0 <= k < |all| && all[k].ws == ws && IsMember(all[k])
    ensures |AuthenticatedConnections(all)| == |OtherMembers(all, ws)| + 1
  {
    assert all == [all[0]] + all[1..];
    var rest := all[1..];
    if k == 0 {
      forall i | 0 <= i < |rest|
        ensures IsMemberC(rest[i], ()) <==> IsOtherMember(rest[i], ws)
      {
        assert rest[i] == all[i + 1];
      }
      FilterWithCongruent(rest, IsMemberC, (), IsOtherMember, ws);
    } else {
      assert rest[k - 1] == all[k];
      MembersCountCaller(rest, ws, k - 1);
    }
  }

  /** The registry lists each socket's record once. */
  lemma AllDistinct(r: Registry)
    requires r.Valid()
    ensures DistinctSockets(r.All())
  {
    var all := r.All();
    forall i, j | 0 <= i < j < |all|
      ensures all[i].ws != all[j].ws
    {
      assert all[i].ws == r.conns.keys[i] && all[j].ws == r.conns.keys[j];
    }
  }

  /**
   * The test as written refuses a member as soon as `maxMembers - 1` others are
   * online: it counts the caller against the cap.
   */
  lemma RefusedOneEarly(cfg: ServerConfig, all: seq<Conn>, ws: Socket, k: int)
    requires DistinctSockets(all)
    requires 0 <= k < |all| && all[k].ws == ws && IsMember(all[k])
    ensures RefusedAsWritten(cfg, all) <==> cfg.maxMembers > 0 && |OtherMembers(all, ws)| >= cfg.maxMembers - 1
  {
    MembersCountCaller(all, ws, k);
  }

  /** With a cap of one, the only member online is refused by the test as written. */
  lemma SoleMemberRefused(cfg: ServerConfig, c: Conn)
    requires cfg.maxMembers == 1 && IsMember(c)
    ensures RefusedAsWritten(cfg, [c]) && !Refused(cfg, [c], c.ws)
  {
    assert AuthenticatedConnections([c]) == [c];
    assert OtherMembers([c], c.ws) == [];
  }

  /**
   * The intended test admits a member exactly when, with the caller, the members
   * online are at most `maxMembers`.
   */
  lemma AdmittedWithinCap(cfg: ServerConfig, all: seq<Conn>, ws: Socket, k: int)
    requires DistinctSockets(all) && cfg.maxMembers > 0
    requires 0 <= k < |all| && all[k].ws == ws && IsMember(all[k])
    ensures !Refused(cfg, all, ws) <==> |AuthenticatedConnections(all)| <= cfg.maxMembers
  {
    MembersCountCaller(all, ws, k);
  }

  /** `getDmChannelsForUser(conn.publicKey)` when the record has a key, else none. */
  function DmsOf(c: Option<Conn>, rows: seq<ChannelRow>): (r: seq<Channel>)
    ensures forall i :: 0 <= i < |r| ==> HasIdentity(c) && r[i].kind == Dm && ListsParticipant(r[i], c.value.publicKey.value)
  {
    if HasIdentity(c) then DmChannelsFor(rows, c.value.publicKey.value) else []
  }

  function IdsOf(cs: seq<Channel>): set<string> {
    set i | 0 <= i < |cs| :: cs[i].id
  }

  /**
   * The welcome lists every non-DM channel, and a DM channel exactly when it lists
   * the caller's key.
   */
  lemma WelcomeChannels(rows: seq<ChannelRow>, c: Option<Conn>)
    ensures forall row :: row in rows && row.kind != Dm ==> RowToChannel(row) in GetChannels(rows) + DmsOf(c, rows)
    ensures forall ch :: ch in GetChannels(rows) + DmsOf(c, rows) && ch.kind == Dm ==>
      HasIdentity(c) && ListsParticipant(ch, c.value.publicKey.value)
    ensures HasIdentity(c) ==> forall row :: row in rows && row.kind == Dm && ListsParticipant(RowToChannel(row), c.value.publicKey.value) ==>
      RowToChannel(row) in DmsOf(c, rows)
  {
    GetChannelsPublicSorted(rows);
    forall row | row in rows && row.kind != Dm
      ensures RowToChannel(row) in GetChannels(rows)
    {
      GetChannelsComplete(rows, row);
    }
    if HasIdentity(c) {
      DmChannelsForExact(rows, c.value.publicKey.value);
    }
  }

  /**
   * The state after an admitted `realm:join`: the realm ensured, the caller's record
   * joined to its DM channels, and the welcome sent to it with the realm, the public
   * channels followed by its DMs, every profile, the keys online before the join,
   * its admin flag, the voice rooms, the screen sharers and the invite links.
   */
  ghost predicate Welcomed(s: Server, conns: OMap<Socket, Conn>, outbox: seq<(Socket, Event)>,
                           realm: seq<RealmRow>, invites: seq<InviteRow>, c: Option<Conn>,
                           onlineKeys: seq<string>, ws: Socket, d: Draw)
    reads s, s.reg, s.db, s.voice
    requires s.Valid() && conns.Valid() && (c.Some? ==> c.value.ws == ws)
  {
    var dms := DmsOf(c, s.db.channels);
    && s.db.realm == Ensured(realm, s.cfg, d.realmId, d.now)
    && s.db.invites == (if invites == [] then [InviteRow(d.inviteId, d.inviteKey, d.now)] else invites)
    && s.reg.conns == (if c.Some? then conns.Put(ws, c.value.(joinedChannels := c.value.joinedChannels + IdsOf(dms)))
                       else conns)
    && |s.db.realm| == 1
    && s.reg.outbox == outbox + Unicast(s.reg.open, ws, RealmWelcome(
         RowToRealmInfo(s.db.realm[0]), GetChannels(s.db.channels) + dms, GetAllProfiles(s.db.profiles),
         onlineKeys, IsAdminConn(s.cfg, c), s.voice.AllVoiceParticipants(), s.voice.ScreenShareChannels(),
         GetInviteLinks(s.db.invites)))
  }

  /** `handleRealmJoin`, with the member cap as intended. */
  method HandleRealmJoin(s: Server, ws: Socket, d: Draw)
    requires s.Valid()
    modifies s.reg`conns, s.reg`outbox, s.db`realm, s.db`invites
    ensures s.Valid()
    ensures Refused(s.cfg, old(s.reg.All()), ws) ==>
      s.reg.conns == old(s.reg.conns) && s.db.realm == old(s.db.realm) && s.db.invites == old(s.db.invites)
      && s.reg.outbox == old(s.reg.outbox) + ErrorTo(s.reg.open, ws, CapacityReached)
    ensures !Refused(s.cfg, old(s.reg.All()), ws) ==>
      Welcomed(s, old(s.reg.conns), old(s.reg.outbox), old(s.db.realm), old(s.db.invites), old(s.reg.Get(ws)),
               old(OnlineKeys(s.reg.All())), ws, d)
  {
    if Refused(s.cfg, s.reg.All(), ws) {
      Tell(s, ws, RealmError(CapacityReached));
    } else {
      Welcome(s, ws, d);
    }
  }

  /** The admitted branch of `handleRealmJoin`. */
  method Welcome(s: Server, ws: Socket, d: Draw)
    requires s.Valid()
    modifies s.reg`conns, s.reg`outbox, s.db`realm, s.db`invites
    ensures s.Valid()
    ensures Welcomed(s, old(s.reg.conns), old(s.reg.outbox), old(s.db.realm), old(s.db.invites), old(s.reg.Get(ws)),
                     old(OnlineKeys(s.reg.All())), ws, d)
  {
    var conn := s.reg.Get(ws);
    var onlineKeys := OnlineKeys(s.reg.All());
    var info := EnsureRealm(s.db, s.cfg, d.realmId, d.now, d.inviteId, d.inviteKey);
    var dms := DmsOf(conn, s.db.channels);
    var channels := GetChannels(s.db.channels) + dms;
    var members := GetAllProfiles(s.db.profiles);
    var adminFlag := IsAdminConn(s.cfg, conn);
    var voiceParticipants := s.voice.AllVoiceParticipants();
    var screenSharers := s.voice.ScreenShareChannels();
    var inviteLinks := GetInviteLinks(s.db.invites);
    JoinAndSend(s.reg, ws, conn, IdsOf(dms), RealmWelcome(info, channels, members, onlineKeys, adminFlag,
                                                         voiceParticipants, screenSharers, inviteLinks));
  }

  /** The caller's record, if any, joins the channels `ids`, and the caller is sent `e`. */
  method JoinAndSend(r: Registry, ws: Socket, c: Option<Conn>, ids: set<string>, e: Event)
    requires r.Valid() && c == r.Get(ws)
    modifies r`conns, r`outbox
    ensures r.Valid()
    ensures r.conns == (if c.Some? then old(r.conns).Put(ws, c.value.(joinedChannels := c.value.joinedChannels + ids))
                        else old(r.conns))
    ensures r.outbox == old(r.outbox) + Unicast(r.open, ws, e)
  {
    if c.Some? {
      r.Update(c.value.(joinedChannels := c.value.joinedChannels + ids));
    }
    r.Send(ws, e);
  }

  // ---------------------------------------------------------------------------
  // channel:join and channel:fetch-history

  const HistoryLimit := 100

  /** `channel:history` for a page of at most `HistoryLimit` messages; `hasMore` when the page is full. */
  function History(rows: seq<MessageRow>, channelId: string, before: Option<int>): Event {
    var messages := GetChannelMessages(rows, channelId, HistoryLimit, before);
    ChannelHistory(channelId, messages, |messages| >= HistoryLimit)
  }

  /**
   * A history page holds the newest `HistoryLimit` matching messages at most, and
   * `hasMore` is set exactly when at least `HistoryLimit` messages match, so a full
   * page may have nothing after it.
   */
  lemma HistoryHasMore(rows: seq<MessageRow>, channelId: string, before: Option<int>)
    ensures var h := History(rows, channelId, before);
      var q := FilterWith(rows, Matches, HistoryQuery(channelId, before));
      && h.historyChannelId == channelId
      && |h.messages| == (if |q| <= HistoryLimit then |q| else HistoryLimit)
      && (h.hasMore <==> |q| >= HistoryLimit)
      && (forall i :: 0 <= i < |h.messages| ==> h.messages[i].channelId == channelId)
  {
    HistoryShape(rows, channelId, HistoryLimit, before);
  }

  /** The `channel:join` guard: a DM channel that does not list the record's key. */
  predicate DmForbids(ch: Option<Channel>, c: Conn) {
    ch.Some? && ch.value.kind == Dm && !(c.publicKey.Some? && ListsParticipant(ch.value, c.publicKey.value))
  }

  /**
   * A DM channel created for two keys without ":" can be joined by exactly those
   * two keys.
   */
  lemma DmJoinableByPair(rows: seq<ChannelRow>, a: string, b: string, id: string, now: int, c: Conn)
    requires ':' !in a && ':' !in b
    requires FindChannel(rows, id) == Some(NewDmRow(id, DmKey(a, b), now))
    ensures !DmForbids(GetChannel(rows, id), c) <==> c.publicKey == Some(a) || c.publicKey == Some(b)
  {
    DmParticipantsRoundTrip(a, b, id, now);
    var p := SortedPair(a, b);
    assert forall k :: k in p <==> k in multiset(p);
  }

  /**
   * `handleChannelJoin`: refuse a DM channel the record is not listed on; otherwise
   * join the channel, even one that does not exist, and send the newest page.
   */
  method HandleChannelJoin(s: Server, ws: Socket, channelId: string)
    requires s.Valid()
    modifies s.reg`conns, s.reg`outbox
    ensures s.Valid()
    ensures old(s.reg.Get(ws)).None? ==> s.reg.conns == old(s.reg.conns) && s.reg.outbox == old(s.reg.outbox)
    ensures old(s.reg.Get(ws)).Some? ==> (
      var c := old(s.reg.Get(ws)).value;
      if DmForbids(GetChannel(s.db.channels, channelId), c) then
        s.reg.conns == old(s.reg.conns) && s.reg.outbox == old(s.reg.outbox) + ErrorTo(s.reg.open, ws, Forbidden)
      else
        s.reg.conns == old(s.reg.conns).Put(ws, c.(joinedChannels := c.joinedChannels + {channelId}))
        && s.reg.outbox == old(s.reg.outbox) + Unicast(s.reg.open, ws, History(s.db.messages, channelId, None)))
  {
    var conn := s.reg.Get(ws);
    if conn.Some? {
      var c := conn.value;
      if DmForbids(GetChannel(s.db.channels, channelId), c) {
        Tell(s, ws, RealmError(Forbidden));
      } else {
        s.reg.Update(c.(joinedChannels := c.joinedChannels + {channelId}));
        Tell(s, ws, History(s.db.messages, channelId, None));
      }
    }
  }

  /** `handleChannelFetchHistory`: a page before `before` of a channel the record joined. */
  method HandleFetchHistory(s: Server, ws: Socket, channelId: string, before: Option<int>)
    requires s.Valid()
    modifies s.reg`outbox
    ensures old(s.reg.Get(ws)).None? ==> s.reg.outbox == old(s.reg.outbox)
    ensures old(s.reg.Get(ws)).Some? && channelId !in old(s.reg.Get(ws)).value.joinedChannels ==>
      s.reg.outbox == old(s.reg.outbox) + ErrorTo(s.reg.open, ws, NotJoined)
    ensures old(s.reg.Get(ws)).Some? && channelId in old(s.reg.Get(ws)).value.joinedChannels ==>
      s.reg.outbox == old(s.reg.outbox) + Unicast(s.reg.open, ws, History(s.db.messages, channelId, before))
  {
    var conn := s.reg.Get(ws);
    if conn.Some? {
      if channelId !in conn.value.joinedChannels {
        Tell(s, ws, RealmError(NotJoined));
      } else {
        Tell(s, ws, History(s.db.messages, channelId, before));
      }
    }
  }

  // ---------------------------------------------------------------------------
  // channel:message and channel:typing

  /** The message `handleChannelMessage` builds from the payload, a uuid and the clock. */
  function Compose(channelId: string, encrypted: string, signature: string, nonce: string,
                   publicKey: string, d: Draw): ChatMessage {
    ChatMessage(d.uuid, channelId, publicKey, encrypted, signature, nonce, false, d.now)
  }

  /** `saveMessage` throws on a missing channel or a taken id. */
  predicate SaveFails(channels: seq<ChannelRow>, messages: seq<MessageRow>, m: ChatMessage) {
    m.channelId !in ChannelIds(channels) || m.id in MessageIds(messages)
  }

  /**
   * The state after a message whose key matches the record's: stored, the sender's
   * profile refreshed from the payload, and the message with the payload's profile
   * sent to every open socket joined to the channel, the sender's included.
   */
  ghost predicate Posted(s: Server, messages: seq<MessageRow>, profiles: OMap<string, ProfileRow>,
                         outbox: seq<(Socket, Event)>, m: ChatMessage, profile: MessageProfile)
    reads s, s.reg, s.db
    requires s.reg.Valid() && ProfilesKeyed(profiles)
  {
    && s.db.messages == messages + [MessageRowOf(m)]
    && s.db.profiles == Upserted(profiles, UserProfile(m.senderPublicKey, profile.name, profile.bio, Some(m.createdAt)), m.createdAt)
    && s.reg.outbox == outbox + Deliveries(ChannelConnections(s.reg.All(), m.channelId), None, s.reg.open,
                                           ChannelMessageEvent(m.channelId, m, profile))
  }

  /**
   * `handleChannelMessage`. A key other than the record's gets `IDENTITY_MISMATCH`;
   * a message `saveMessage` refuses throws before anything changes.
   */
  method HandleChannelMessage(s: Server, ws: Socket, channelId: string, encrypted: string, signature: string,
                              nonce: string, publicKey: string, profile: MessageProfile, d: Draw)
    returns (threw: bool)
    requires s.Valid()
    modifies s.reg`outbox, s.db`messages, s.db`profiles
    ensures s.Valid()
    ensures var c := old(s.reg.Get(ws));
      threw <==> c.Some? && c.value.publicKey == Some(publicKey)
                 && SaveFails(s.db.channels, old(s.db.messages), Compose(channelId, encrypted, signature, nonce, publicKey, d))
    ensures var c := old(s.reg.Get(ws));
      c.None? || c.value.publicKey != Some(publicKey) || threw ==>
        s.db.messages == old(s.db.messages) && s.db.profiles == old(s.db.profiles)
        && s.reg.outbox == old(s.reg.outbox)
           + (if c.Some? && !threw then ErrorTo(s.reg.open, ws, IdentityMismatch) else [])
    ensures var c := old(s.reg.Get(ws));
      c.Some? && c.value.publicKey == Some(publicKey) && !threw ==>
        Posted(s, old(s.db.messages), old(s.db.profiles), old(s.reg.outbox),
               Compose(channelId, encrypted, signature, nonce, publicKey, d), profile)
  {
    threw := false;
    var conn := s.reg.Get(ws);
    if conn.Some? {
      if conn.value.publicKey != Some(publicKey) {
        Tell(s, ws, RealmError(IdentityMismatch));
      } else {
        var m := Compose(channelId, encrypted, signature, nonce, publicKey, d);
        var saved := SaveMessage(s.db, m);
        if saved.Err? {
          threw := true;
        } else {
          Post(s, m, profile, old(s.db.messages));
        }
      }
    }
  }

  /** The part of `handleChannelMessage` after the message is stored. */
  method Post(s: Server, m: ChatMessage, profile: MessageProfile, ghost before: seq<MessageRow>)
    requires s.Valid() && s.db.messages == before + [MessageRowOf(m)]
    modifies s.reg`outbox, s.db`profiles
    ensures s.Valid()
    ensures Posted(s, before, old(s.db.profiles), old(s.reg.outbox), m, profile)
  {
    RefreshProfile(s, UserProfile(m.senderPublicKey, profile.name, profile.bio, Some(m.createdAt)), m.createdAt);
    ToChannel(s, m.channelId, ChannelMessageEvent(m.channelId, m, profile), None);
  }

  /**
   * A posted message reaches the sender when its socket is open and joined to the
   * channel, and reaches every other open socket joined to the channel; no other
   * socket hears it. It is then on the channel's history.
   */
  lemma PostedReaches(conns: OMap<Socket, Conn>, open: set<Socket>, rows: seq<MessageRow>,
                      m: ChatMessage, profile: MessageProfile, w: Socket)
    requires conns.Valid() && forall v :: v in conns.vals ==> conns.vals[v].ws == v
    ensures var e := ChannelMessageEvent(m.channelId, m, profile);
      (w, e) in Deliveries(ChannelConnections(conns.Values(), m.channelId), None, open, e) <==>
        w in conns.vals && m.channelId in conns.vals[w].joinedChannels && w in open
    ensures m in GetChannelMessages(rows + [MessageRowOf(m)], m.channelId, -1, None)
  {
    ChannelBroadcastReaches(conns, m.channelId, None, open, ChannelMessageEvent(m.channelId, m, profile), w);
    SavedIsListed(rows, m);
  }

  /** `handleTyping`: a key other than the record's is dropped silently. */
  method HandleTyping(s: Server, ws: Socket, channelId: string, publicKey: string)
    requires s.Valid()
    modifies s.reg`outbox
    ensures var c := old(s.reg.Get(ws));
      if c.Some? && c.value.publicKey == Some(publicKey) then
        s.reg.outbox == old(s.reg.outbox) + Deliveries(ChannelConnections(s.reg.All(), channelId), Some(ws), s.reg.open,
                                                       ChannelTypingEvent(channelId, publicKey, c.value.name.GetOr("Unknown")))
      else s.reg.outbox == old(s.reg.outbox)
  {
    var conn := s.reg.Get(ws);
    if conn.Some? && conn.value.publicKey == Some(publicKey) {
      ToChannel(s, channelId, ChannelTypingEvent(channelId, publicKey, conn.value.name.GetOr("Unknown")), Some(ws));
    }
  }

  /** The typist never hears its own typing; every other open socket joined to the channel does. */
  lemma TypingReaches(conns: OMap<Socket, Conn>, open: set<Socket>, channelId: string, ws: Socket, e: Event, w: Socket)
    requires conns.Valid() && forall v :: v in conns.vals ==> conns.vals[v].ws == v
    ensures (w, e) in Deliveries(ChannelConnections(conns.Values(), channelId), Some(ws), open, e) <==>
      w != ws && w in conns.vals && channelId in conns.vals[w].joinedChannels && w in open
  {
    ChannelBroadcastReaches(conns, channelId, Some(ws), open, e, w);
  }

  // ---------------------------------------------------------------------------
  // dm:open

  /** The channel `findOrCreateDmChannel` answers with, `None` where the insert throws. */
  function OpenedDm(rows: seq<ChannelRow>, keyA: string, keyB: string, id: string, now: int): Option<Channel> {
    var key := DmKey(keyA, keyB);
    match FindDm(rows, key)
    case Some(row) => Some(RowToChannel(row))
    case None =>
      if id in ChannelIds(rows) then None
      else Some(Channel(id, "dm:" + key, Dm, false, 0, None, None, now, Some(SortedPair(keyA, keyB))))
  }

  /** Opening the DM from either side gives the same channel. */
  lemma OpenedDmSymmetric(rows: seq<ChannelRow>, a: string, b: string, id: string, now: int)
    ensures OpenedDm(rows, a, b, id, now) == OpenedDm(rows, b, a, id, now)
  {
    DmKeySymmetric(a, b);
  }

  /** The new DM channel lists both keys and no other. */
  lemma OpenedDmListsPair(rows: seq<ChannelRow>, a: string, b: string, id: string, now: int, k: string)
    requires FindDm(rows, DmKey(a, b)).None? && id !in ChannelIds(rows)
    ensures ListsParticipant(OpenedDm(rows, a, b, id, now).value, k) <==> k == a || k == b
  {
    var p := SortedPair(a, b);
    assert forall x :: x in p <==> x in multiset(p);
  }

  /** The record after it joined a channel. */
  function Joined(c: Conn, channelId: string): Conn {
    c.(joinedChannels := c.joinedChannels + {channelId})
  }

  /**
   * The state after a DM channel opened: the caller joined and told, then the target's
   * first authenticated record, if any, joined and told.
   */
  ghost predicate DmDelivered(s: Server, conns: OMap<Socket, Conn>, outbox: seq<(Socket, Event)>,
                              c: Conn, target: Option<Conn>, ch: Channel)
    reads s, s.reg
    requires conns.Valid()
  {
    var afterCaller := conns.Put(c.ws, Joined(c, ch.id));
    && s.reg.conns == (if target.Some? then afterCaller.Put(target.value.ws, Joined(target.value, ch.id)) else afterCaller)
    && s.reg.outbox == outbox + Unicast(s.reg.open, c.ws, DmOpened(ch))
       + (if target.Some? then Unicast(s.reg.open, target.value.ws, DmOpened(ch)) else [])
  }

  /**
   * `handleDmOpen`. Without a key nothing happens. Otherwise the realm is ensured;
   * direct messages switched off give `DM_DISABLED` and the caller's own key
   * `INVALID_TARGET`; a DM channel the database refuses throws.
   */
  method HandleDmOpen(s: Server, ws: Socket, targetPublicKey: string, d: Draw) returns (threw: bool)
    requires s.Valid()
    modifies s.reg`conns, s.reg`outbox, s.db`realm, s.db`invites, s.db`channels
    ensures s.Valid()
    ensures !HasIdentity(old(s.reg.Get(ws))) ==>
      !threw && s.reg.conns == old(s.reg.conns) && s.reg.outbox == old(s.reg.outbox)
      && s.db.realm == old(s.db.realm) && s.db.invites == old(s.db.invites) && s.db.channels == old(s.db.channels)
    ensures HasIdentity(old(s.reg.Get(ws))) ==> (
      var c := old(s.reg.Get(ws)).value;
      var key := c.publicKey.value;
      && s.db.realm == Ensured(old(s.db.realm), s.cfg, d.realmId, d.now)
      && s.db.invites == (if old(s.db.invites) == [] then [InviteRow(d.inviteId, d.inviteKey, d.now)] else old(s.db.invites))
      && |s.db.realm| == 1
      && var allowed := RowToRealmInfo(s.db.realm[0]).allowDirectMessages;
      && (!allowed || targetPublicKey == key ==>
            !threw && s.reg.conns == old(s.reg.conns) && s.db.channels == old(s.db.channels)
            && s.reg.outbox == old(s.reg.outbox) + ErrorTo(s.reg.open, ws, if !allowed then DmDisabled else InvalidTarget))
      && (allowed && targetPublicKey != key ==>
            var ch := OpenedDm(old(s.db.channels), key, targetPublicKey, d.uuid, d.now);
            && (threw <==> ch.None?)
            && (ch.None? ==> s.reg.conns == old(s.reg.conns) && s.reg.outbox == old(s.reg.outbox)
                             && s.db.channels == old(s.db.channels))
            && (ch.Some? ==> DmDelivered(s, old(s.reg.conns), old(s.reg.outbox), c,
                                         ConnectionByPublicKey(old(s.reg.All()), targetPublicKey), ch.value))))
  {
    threw := false;
    var conn := s.reg.Get(ws);
    if HasIdentity(conn) {
      var c := conn.value;
      var key := c.publicKey.value;
      var info := EnsureRealm(s.db, s.cfg, d.realmId, d.now, d.inviteId, d.inviteKey);
      if !info.allowDirectMessages {
        Tell(s, ws, RealmError(DmDisabled));
      } else if targetPublicKey == key {
        Tell(s, ws, RealmError(InvalidTarget));
      } else {
        var r := FindOrCreateDmChannel(s.db, key, targetPublicKey, d.uuid, d.now);
        if r.Err? {
          threw := true;
        } else {
          var target := ConnectionByPublicKey(s.reg.All(), targetPublicKey);
          if target.Some? {
            Filed(s.reg, target.value);
          }
          DeliverDm(s, c, target, r.value);
        }
      }
    }
  }

  /** A record the registry lists is the one filed under its socket. */
  lemma Filed(r: Registry, x: Conn)
    requires r.Valid() && x in r.All()
    ensures r.Get(x.ws) == Some(x)
  {
    var all := r.All();
    var i :| 0 <= i < |all| && all[i] == x;
    assert r.conns.keys[i] in r.conns.vals;
  }

  /** The part of `handleDmOpen` after the channel is found or created. */
  method DeliverDm(s: Server, c: Conn, target: Option<Conn>, ch: Channel)
    requires s.Valid() && s.reg.Get(c.ws) == Some(c)
    requires target.Some? ==> target.value.ws != c.ws && s.reg.Get(target.value.ws) == target
    modifies s.reg`conns, s.reg`outbox
    ensures s.Valid()
    ensures DmDelivered(s, old(s.reg.conns), old(s.reg.outbox), c, target, ch)
  {
    JoinAndTell(s, c, ch);
    if target.Some? {
      assert s.reg.Get(target.value.ws) == target;
      JoinAndTell(s, target.value, ch);
    }
  }

  /** One side of an opened DM channel: the record joins it and is told. */
  method JoinAndTell(s: Server, x: Conn, ch: Channel)
    requires s.Valid() && s.reg.Get(x.ws) == Some(x)
    modifies s.reg`conns, s.reg`outbox
    ensures s.Valid()
    ensures s.reg.conns == old(s.reg.conns).Put(x.ws, Joined(x, ch.id))
    ensures s.reg.outbox == old(s.reg.outbox) + Unicast(s.reg.open, x.ws, DmOpened(ch))
  {
    Rewrite(s, Joined(x, ch.id));
    Tell(s, x.ws, DmOpened(ch));
  }
}
