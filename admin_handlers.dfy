/**
 * The admin handlers: `realm:update`, `channel:create`, `channel:delete`,
 * `realm:set-password-verify`, `channel:set-password-verify` and
 * `invite:regenerate`. Each answers `FORBIDDEN` and changes nothing unless the
 * caller's record carries a key the configuration lists as an admin.
 */
module AdminHandlers {
  import opened Wrappers
  import opened Protocol
  import opened Text
  import opened Sequences
  import opened Connections
  import opened Tables
  import opened Channels
  import opened Realm
  import opened Invites
  import opened Server

  /** The state of a refused admin command: only `FORBIDDEN` to the caller. */
  ghost predicate Forbade(s: Server, outbox: seq<(Socket, Event)>, ws: Socket)
    reads s, s.reg
  {
    s.reg.outbox == outbox + ErrorTo(s.reg.open, ws, Forbidden)
  }

  /** `broadcastToAll(e)` as it lands in the outbox. */
  function ToAll(r: Registry, e: Event): seq<(Socket, Event)>
    reads r
    requires r.Valid()
  {
    Deliveries(AuthenticatedConnections(r.All()), None, r.open, e)
  }

  /** The invite table after `ensureRealm`. */
  function EnsuredInvites(invites: seq<InviteRow>, d: Draw): seq<InviteRow> {
    if invites == [] then [InviteRow(d.inviteId, d.inviteKey, d.now)] else invites
  }

  // ---------------------------------------------------------------------------
  // realm:update

  /**
   * The update `handleRealmUpdate` passes on: a name that trims to nothing is no
   * name, a description is trimmed, the other fields are as given.
   */
  function RealmUpdatePatch(name: Option<string>, description: Option<string>, allowDirectMessages: Option<bool>,
                            retentionDays: Option<Option<int>>, fileRetentionDays: Option<Option<int>>): RealmPatch {
    RealmPatch(
      if name.Some? && Trim(name.value) != "" then Some(Trim(name.value)) else None,
      if description.Some? then Some(Trim(description.value)) else None,
      allowDirectMessages, retentionDays, fileRetentionDays)
  }

  /**
   * An update never blanks the realm name: a name of whitespace only leaves it as it
   * was, and a name that is set is non-empty and already trimmed.
   */
  lemma UpdateNeverBlanksName(row: RealmRow, name: Option<string>, description: Option<string>,
                              allowDirectMessages: Option<bool>, retentionDays: Option<Option<int>>,
                              fileRetentionDays: Option<Option<int>>)
    ensures var u := RealmUpdatePatch(name, description, allowDirectMessages, retentionDays, fileRetentionDays);
      var after := RowToRealmInfo(ApplyUpdate(row, u));
      && (name.None? || AllWhitespace(name.value) ==> after.name == row.name)
      && (name.Some? && !AllWhitespace(name.value) ==> after.name == Trim(name.value) && after.name != ""
                                                       && Trim(after.name) == after.name)
      && (description.Some? ==> after.description == Some(Trim(description.value)))
      && (description.None? ==> after.description == row.description)
  {
    if name.Some? {
      TrimEmptyIffWhitespace(name.value);
      TrimIdempotent(name.value);
    }
  }

  /** The `realm:update` broadcast after a settings change. */
  function SettingsEvent(info: RealmInfo): Event {
    RealmSettingsUpdated(info.name, info.description, info.allowDirectMessages, info.retentionDays,
                         info.fileRetentionDays)
  }

  /** `handleRealmUpdate`. */
  method HandleRealmUpdate(s: Server, ws: Socket, name: Option<string>, description: Option<string>,
                           allowDirectMessages: Option<bool>, retentionDays: Option<Option<int>>,
                           fileRetentionDays: Option<Option<int>>, d: Draw)
    requires s.Valid()
    modifies s.reg`outbox, s.db`realm, s.db`invites
    ensures s.Valid()
    ensures !IsAdminConn(s.cfg, old(s.reg.Get(ws))) ==>
      s.db.realm == old(s.db.realm) && s.db.invites == old(s.db.invites) && Forbade(s, old(s.reg.outbox), ws)
    ensures IsAdminConn(s.cfg, old(s.reg.Get(ws))) ==>
      var u := RealmUpdatePatch(name, description, allowDirectMessages, retentionDays, fileRetentionDays);
      && s.db.realm == Ensured(UpdateRows(old(s.db.realm), u), s.cfg, d.realmId, d.now)
      && s.db.invites == EnsuredInvites(old(s.db.invites), d)
      && |s.db.realm| == 1
      && s.reg.outbox == old(s.reg.outbox) + ToAll(s.reg, SettingsEvent(RowToRealmInfo(s.db.realm[0])))
  {
    if !IsAdminConn(s.cfg, s.reg.Get(ws)) {
      Tell(s, ws, RealmError(Forbidden));
    } else {
      var u := RealmUpdatePatch(name, description, allowDirectMessages, retentionDays, fileRetentionDays);
      var updated := UpdateRealm(s.db, u, s.cfg, d.realmId, d.now, d.inviteId, d.inviteKey);
      Announce(s, SettingsEvent(updated), None);
    }
  }

  // ---------------------------------------------------------------------------
  // channel:create and channel:delete

  /** `handleChannelCreate`: a channel the database refuses throws before the broadcast. */
  method HandleChannelCreate(s: Server, ws: Socket, name: string, kind: string, encrypted: Option<bool>,
                             passwordVerify: Option<string>, passwordVerifyNonce: Option<string>, d: Draw)
    returns (threw: bool)
    requires s.Valid()
    modifies s.reg`outbox, s.db`channels
    ensures s.Valid()
    ensures !IsAdminConn(s.cfg, old(s.reg.Get(ws))) ==>
      !threw && s.db.channels == old(s.db.channels) && Forbade(s, old(s.reg.outbox), ws)
    ensures IsAdminConn(s.cfg, old(s.reg.Get(ws))) ==>
      && (threw <==> CreateFails(old(s.db.channels), kind, d.uuid))
      && s.db.channels == AfterCreate(old(s.db.channels), name, kind, encrypted, passwordVerify, passwordVerifyNonce,
                                      d.uuid, d.now)
      && (threw ==> s.reg.outbox == old(s.reg.outbox))
      && (!threw ==>
            s.db.channels != [] &&
            s.reg.outbox == old(s.reg.outbox) + ToAll(s.reg, ChannelCreated(RowToChannel(s.db.channels[|s.db.channels| - 1]))))
  {
    threw := false;
    if !IsAdminConn(s.cfg, s.reg.Get(ws)) {
      Tell(s, ws, RealmError(Forbidden));
    } else {
      var r := CreateChannel(s.db, name, kind, encrypted, passwordVerify, passwordVerifyNonce, d.uuid, d.now);
      if r.Err? {
        threw := true;
      } else {
        Announce(s, ChannelCreated(r.value), None);
      }
    }
  }

  /**
   * `handleChannelDelete`: an unknown id gets `NOT_FOUND`; otherwise the channel goes
   * with its messages and their attachments, and everyone is told.
   */
  method HandleChannelDelete(s: Server, ws: Socket, channelId: string)
    requires s.Valid()
    modifies s.reg`outbox, s.db`channels, s.db`messages, s.db`attachments
    ensures s.Valid()
    ensures !IsAdminConn(s.cfg, old(s.reg.Get(ws))) ==>
      s.db.channels == old(s.db.channels) && s.db.messages == old(s.db.messages)
      && s.db.attachments == old(s.db.attachments) && Forbade(s, old(s.reg.outbox), ws)
    ensures IsAdminConn(s.cfg, old(s.reg.Get(ws))) ==>
      && channelId !in ChannelIds(s.db.channels)
      && Cascaded(s, old(s.db.channels), old(s.db.messages), old(s.db.attachments), channelId)
      && (channelId !in ChannelIds(old(s.db.channels)) ==>
            s.reg.outbox == old(s.reg.outbox) + ErrorTo(s.reg.open, ws, NotFound))
      && (channelId in ChannelIds(old(s.db.channels)) ==>
            s.reg.outbox == old(s.reg.outbox) + ToAll(s.reg, ChannelDeleted(channelId)))
  {
    if !IsAdminConn(s.cfg, s.reg.Get(ws)) {
      Tell(s, ws, RealmError(Forbidden));
    } else {
      var deleted := DropChannel(s, channelId);
      if !deleted {
        Tell(s, ws, RealmError(NotFound));
      } else {
        Announce(s, ChannelDeleted(channelId), None);
      }
    }
  }

  /** The tables after `deleteChannel(id)`: the channel, its messages and their attachments gone. */
  ghost predicate Cascaded(s: Server, channels: seq<ChannelRow>, messages: seq<MessageRow>,
                           attachments: seq<AttachmentRow>, id: string)
    reads s, s.db
  {
    && s.db.channels == FilterWith(channels, HasOtherId, id)
    && s.db.messages == FilterWith(messages, NotInChannel, id)
    && s.db.attachments == FilterWith(attachments, NotOnMessages, MessageIds(FilterWith(messages, Channels.InChannel, id)))
  }

  /** `deleteChannel` on the server's database. */
  method DropChannel(s: Server, id: string) returns (deleted: bool)
    requires s.Valid()
    modifies s.db`channels, s.db`messages, s.db`attachments
    ensures s.Valid()
    ensures deleted <==> id in ChannelIds(old(s.db.channels))
    ensures id !in ChannelIds(s.db.channels)
    ensures Cascaded(s, old(s.db.channels), old(s.db.messages), old(s.db.attachments), id)
  {
    deleted := DeleteChannel(s.db, id);
  }

  // ---------------------------------------------------------------------------
  // The password-verification blobs

  /** The `realm:update` broadcast after the realm's verification blob changed. */
  function VerifyEvent(info: RealmInfo): Event {
    RealmVerifyUpdated(info.name, info.description, info.allowDirectMessages, info.passwordVerify,
                       info.passwordVerifyNonce)
  }

  /**
   * With a realm row in place the broadcast carries the new blob and nonce; on a
   * database without one the update touches nothing and the configured row, with no
   * blob, is what gets announced.
   */
  lemma VerifyBroadcastCarriesBlob(rows: seq<RealmRow>, cfg: Config.ServerConfig, id: string, now: int,
                                   ciphertext: string, nonce: string)
    ensures var after := Ensured(SetVerify(rows, ciphertext, nonce), cfg, id, now);
      |after| >= 1 &&
      var e := VerifyEvent(RowToRealmInfo(after[0]));
      && (rows != [] ==> e.passwordVerify == Some(ciphertext) && e.passwordVerifyNonce == Some(nonce))
      && (rows == [] ==> e.passwordVerify.None? && e.passwordVerifyNonce.None?)
  {
  }

  /** `handleRealmSetPasswordVerify`. */
  method HandleRealmSetPasswordVerify(s: Server, ws: Socket, ciphertext: string, nonce: string, d: Draw)
    requires s.Valid()
    modifies s.reg`outbox, s.db`realm, s.db`invites
    ensures s.Valid()
    ensures !IsAdminConn(s.cfg, old(s.reg.Get(ws))) ==>
      s.db.realm == old(s.db.realm) && s.db.invites == old(s.db.invites) && Forbade(s, old(s.reg.outbox), ws)
    ensures IsAdminConn(s.cfg, old(s.reg.Get(ws))) ==>
      && s.db.realm == Ensured(SetVerify(old(s.db.realm), ciphertext, nonce), s.cfg, d.realmId, d.now)
      && s.db.invites == EnsuredInvites(old(s.db.invites), d)
      && |s.db.realm| == 1
      && s.reg.outbox == old(s.reg.outbox) + ToAll(s.reg, VerifyEvent(RowToRealmInfo(s.db.realm[0])))
  {
    if !IsAdminConn(s.cfg, s.reg.Get(ws)) {
      Tell(s, ws, RealmError(Forbidden));
    } else {
      SetRealmPasswordVerify(s.db, ciphertext, nonce);
      var realm := EnsureRealm(s.db, s.cfg, d.realmId, d.now, d.inviteId, d.inviteKey);
      Announce(s, VerifyEvent(realm), None);
    }
  }

  /** `handleChannelSetPasswordVerify`: stored without any broadcast. */
  method HandleChannelSetPasswordVerify(s: Server, ws: Socket, channelId: string, ciphertext: string, nonce: string)
    requires s.Valid()
    modifies s.reg`outbox, s.db`channels
    ensures s.Valid()
    ensures !IsAdminConn(s.cfg, old(s.reg.Get(ws))) ==>
      s.db.channels == old(s.db.channels) && Forbade(s, old(s.reg.outbox), ws)
    ensures IsAdminConn(s.cfg, old(s.reg.Get(ws))) && channelId !in ChannelIds(old(s.db.channels)) ==>
      s.db.channels == old(s.db.channels) && s.reg.outbox == old(s.reg.outbox) + ErrorTo(s.reg.open, ws, NotFound)
    ensures IsAdminConn(s.cfg, old(s.reg.Get(ws))) && channelId in ChannelIds(old(s.db.channels)) ==>
      s.db.channels == SetVerifyRows(old(s.db.channels), channelId, ciphertext, nonce)
      && s.reg.outbox == old(s.reg.outbox)
  {
    if !IsAdminConn(s.cfg, s.reg.Get(ws)) {
      Tell(s, ws, RealmError(Forbidden));
    } else {
      var channel := GetChannel(s.db.channels, channelId);
      if channel.None? {
        Tell(s, ws, RealmError(NotFound));
      } else {
        SetChannelPasswordVerify(s.db, channelId, ciphertext, nonce);
      }
    }
  }

  // ---------------------------------------------------------------------------
  // invite:regenerate

  /**
   * `handleInviteRegenerate`: an unknown invite gets `NOT_FOUND`; otherwise it is
   * replaced by a new link under the two uuids drawn, and everyone gets the new list.
   */
  method HandleInviteRegenerate(s: Server, ws: Socket, inviteId: string, d: Draw)
    requires s.Valid() && d.uuid !in InviteIds(s.db.invites)
    modifies s.reg`outbox, s.db`invites
    ensures s.Valid()
    ensures !IsAdminConn(s.cfg, old(s.reg.Get(ws))) ==>
      s.db.invites == old(s.db.invites) && Forbade(s, old(s.reg.outbox), ws)
    ensures IsAdminConn(s.cfg, old(s.reg.Get(ws))) && inviteId !in InviteIds(old(s.db.invites)) ==>
      s.db.invites == old(s.db.invites) && s.reg.outbox == old(s.reg.outbox) + ErrorTo(s.reg.open, ws, NotFound)
    ensures IsAdminConn(s.cfg, old(s.reg.Get(ws))) && inviteId in InviteIds(old(s.db.invites)) ==>
      s.db.invites == Regenerated(old(s.db.invites), inviteId, d.uuid, d.uuid2, d.now)
      && s.reg.outbox == old(s.reg.outbox) + ToAll(s.reg, InviteRegenerated(GetInviteLinks(s.db.invites)))
  {
    if !IsAdminConn(s.cfg, s.reg.Get(ws)) {
      Tell(s, ws, RealmError(Forbidden));
    } else {
      Regenerate(s, ws, inviteId, d);
    }
  }

  /** The admitted branch of `handleInviteRegenerate`. */
  method Regenerate(s: Server, ws: Socket, inviteId: string, d: Draw)
    requires s.Valid() && d.uuid !in InviteIds(s.db.invites)
    modifies s.reg`outbox, s.db`invites
    ensures s.Valid()
    ensures inviteId !in InviteIds(old(s.db.invites)) ==>
      s.db.invites == old(s.db.invites) && s.reg.outbox == old(s.reg.outbox) + ErrorTo(s.reg.open, ws, NotFound)
    ensures inviteId in InviteIds(old(s.db.invites)) ==>
      s.db.invites == Regenerated(old(s.db.invites), inviteId, d.uuid, d.uuid2, d.now)
      && s.reg.outbox == old(s.reg.outbox) + ToAll(s.reg, InviteRegenerated(GetInviteLinks(s.db.invites)))
  {
    var link := NewInvite(s, inviteId, d);
    if link.None? {
      Tell(s, ws, RealmError(NotFound));
    } else {
      Announce(s, InviteRegenerated(GetInviteLinks(s.db.invites)), None);
    }
  }

  /** `regenerateInvite(inviteId)` as a step of the whole server. */
  method NewInvite(s: Server, inviteId: string, d: Draw) returns (r: Option<InviteLink>)
    requires s.Valid() && d.uuid !in InviteIds(s.db.invites)
    modifies s.db`invites
    ensures s.Valid()
    ensures inviteId !in InviteIds(old(s.db.invites)) ==> r == None && s.db.invites == old(s.db.invites)
    ensures inviteId in InviteIds(old(s.db.invites)) ==>
      r.Some? && s.db.invites == Regenerated(old(s.db.invites), inviteId, d.uuid, d.uuid2, d.now)
  {
    r := RegenerateInvite(s.db, inviteId, d.uuid, d.uuid2, d.now);
  }
}
