/**
 * The channel table: public text and voice channels ordered by position, and direct
 * message (DM) channels identified by the sorted pair of their participants' keys.
 * Ids and the clock are parameters (`id`, `now`).
 */
module Channels {
  import opened Wrappers
  import opened Text
  import opened Sequences
  import opened Protocol
  import opened Tables
  import opened OrderedMaps
  import Config

  /** An optional text column as the row mapping keeps it: only when non-empty. */
  function IfTruthy(s: Option<string>): Option<string> {
    if Config.Truthy(s) then s else None
  }

  /** `rowToChannel`. */
  function RowToChannel(row: ChannelRow): Channel {
    Channel(
      row.id, row.name, row.kind, row.encrypted == 1, row.position,
      IfTruthy(row.passwordVerify), IfTruthy(row.passwordVerifyNonce), row.createdAt,
      if Config.Truthy(row.participants) then Some(Split(row.participants.value, ':')) else None)
  }

  function MapRows(rows: seq<ChannelRow>): (r: seq<Channel>)
    ensures |r| == |rows| && forall i :: 0 <= i < |rows| ==> r[i] == RowToChannel(rows[i])
  {
    seq(|rows|, i requires 0 <= i < |rows| => RowToChannel(rows[i]))
  }

  predicate IsPublic(row: ChannelRow) {
    row.kind != Dm
  }

  function PositionOf(row: ChannelRow): int {
    row.position
  }

  /** `getChannels`: `WHERE type != 'dm' ORDER BY position ASC`. */
  function GetChannels(rows: seq<ChannelRow>): seq<Channel> {
    MapRows(SortBy(Filter(rows, IsPublic), PositionOf))
  }

  /** `getChannels` lists no DM channel, and in ascending position. */
  lemma GetChannelsPublicSorted(rows: seq<ChannelRow>)
    ensures var g := GetChannels(rows);
      (forall i :: 0 <= i < |g| ==> g[i].kind != Dm)
      && forall i, j :: 0 <= i < j < |g| ==> g[i].position <= g[j].position
  {
    var f := Filter(rows, IsPublic);
    var s := SortBy(f, PositionOf);
    forall i | 0 <= i < |s|
      ensures s[i].kind != Dm
    {
      assert s[i] in multiset(s);
      assert s[i] in f;
    }
  }

  /** `getChannels` lists every non-DM channel. */
  lemma GetChannelsComplete(rows: seq<ChannelRow>, row: ChannelRow)
    requires row in rows && row.kind != Dm
    ensures RowToChannel(row) in GetChannels(rows)
  {
    var f := Filter(rows, IsPublic);
    var s := SortBy(f, PositionOf);
    assert row in multiset(f);
    assert row in multiset(s);
    var k :| 0 <= k < |s| && s[k] == row;
    assert GetChannels(rows)[k] == RowToChannel(row);
  }

  /** No channel but DM channels: the case in which the default channels are created. */
  predicate OnlyDms(rows: seq<ChannelRow>) {
    forall i :: 0 <= i < |rows| ==> rows[i].kind == Dm
  }

  /** `getChannels` is empty exactly when every channel is a DM channel. */
  lemma GetChannelsEmptyIff(rows: seq<ChannelRow>)
    ensures GetChannels(rows) == [] <==> OnlyDms(rows)
  {
    var f := Filter(rows, IsPublic);
    if GetChannels(rows) == [] {
      forall i | 0 <= i < |rows|
        ensures rows[i].kind == Dm
      {
        assert rows[i] in rows;
      }
    } else {
      assert f[0] in f;
    }
  }

  /** `getChannel`: the first row with that id. */
  function FindChannel(rows: seq<ChannelRow>, id: string): (r: Option<ChannelRow>)
    ensures r.Some? ==> r.value in rows && r.value.id == id
    ensures r.None? <==> id !in ChannelIds(rows)
  {
    if |rows| == 0 then None
    else if rows[0].id == id then Some(rows[0])
    else
      var r := FindChannel(rows[1..], id);
      assert ChannelIds(rows) == {rows[0].id} + ChannelIds(rows[1..]) by {
        assert rows == [rows[0]] + rows[1..];
      }
      r
  }

  function GetChannel(rows: seq<ChannelRow>, id: string): Option<Channel> {
    match FindChannel(rows, id)
    case None => None
    case Some(row) => Some(RowToChannel(row))
  }

  /** `SELECT COALESCE(MAX(position), -1)`: over every row, DM rows included. */
  function MaxPosition(rows: seq<ChannelRow>): (m: int)
    ensures forall i :: 0 <= i < |rows| ==> rows[i].position <= m
    ensures rows == [] ==> m == -1
    ensures rows != [] ==> exists i :: 0 <= i < |rows| && rows[i].position == m
  {
    if |rows| == 0 then -1
    else if |rows| == 1 then rows[0].position
    else
      var rest := MaxPosition(rows[1..]);
      if rows[0].position >= rest then rows[0].position
      else
        var k :| 0 <= k < |rows[1..]| && rows[1..][k].position == rest;
        assert rows[k + 1].position == rest;
        rest
  }

  /** The row `createChannel` inserts. */
  function NewChannelRow(id: string, name: string, kind: ChannelType, encrypted: bool,
                         passwordVerify: Option<string>, passwordVerifyNonce: Option<string>,
                         position: int, now: int): ChannelRow
  {
    ChannelRow(id, name, kind, if encrypted then 1 else 0, position, passwordVerify, passwordVerifyNonce, None, now)
  }

  lemma ChannelIdsAppend(rows: seq<ChannelRow>, row: ChannelRow)
    ensures ChannelIds(rows + [row]) == ChannelIds(rows) + {row.id}
  {
    assert forall r :: r in rows + [row] <==> r in rows || r == row;
  }

  /** Whether `createChannel`'s insert throws: an unknown type or an id in use. */
  predicate CreateFails(rows: seq<ChannelRow>, kind: string, id: string) {
    ParseChannelType(kind).None? || id in ChannelIds(rows)
  }

  /** The channel table after `createChannel`. */
  function AfterCreate(rows: seq<ChannelRow>, name: string, kind: string, encrypted: Option<bool>,
                       passwordVerify: Option<string>, passwordVerifyNonce: Option<string>,
                       id: string, now: int): seq<ChannelRow>
  {
    if CreateFails(rows, kind, id) then rows
    else rows + [NewChannelRow(id, name, ParseChannelType(kind).value, encrypted.GetOr(false),
                               passwordVerify, passwordVerifyNonce, MaxPosition(rows) + 1, now)]
  }

  /**
   * `createChannel`: insert a channel after every existing one. The `CHECK` on the
   * type column and the primary key make the insert throw for an unknown type or a
   * reused id; the returned channel is what reading the new row back yields.
   */
  method CreateChannel(db: Database, name: string, kind: string, encrypted: Option<bool>,
                       passwordVerify: Option<string>, passwordVerifyNonce: Option<string>,
                       id: string, now: int)
    returns (r: Result<Channel, DbError>)
    requires db.Valid()
    modifies db`channels
    ensures db.Valid()
    ensures db.channels == AfterCreate(old(db.channels), name, kind, encrypted, passwordVerify, passwordVerifyNonce, id, now)
    ensures r.Err? <==> CreateFails(old(db.channels), kind, id)
    ensures r.Ok? ==> r.value == RowToChannel(db.channels[|db.channels| - 1])
  {
    var t := ParseChannelType(kind);
    if t.None? {
      r := Err(CheckFailed);
    } else if id in ChannelIds(db.channels) {
      r := Err(PrimaryKeyFailed);
    } else {
      var enc := encrypted.GetOr(false);
      var maxPos := MaxPosition(db.channels);
      var row := NewChannelRow(id, name, t.value, enc, passwordVerify, passwordVerifyNonce, maxPos + 1, now);
      ChannelIdsAppend(db.channels, row);
      forall i | 0 <= i < |db.channels|
        ensures ChannelKey(db.channels[i]) != ChannelKey(row)
      {
        assert db.channels[i] in db.channels;
      }
      AppendUnique(db.channels, row, ChannelKey);
      db.channels := db.channels + [row];
      var channel := Channel(id, name, t.value, enc, maxPos + 1, None, None, now, None);
      if Config.Truthy(passwordVerify) {
        channel := channel.(passwordVerify := passwordVerify);
      }
      if Config.Truthy(passwordVerifyNonce) {
        channel := channel.(passwordVerifyNonce := passwordVerifyNonce);
      }
      r := Ok(channel);
    }
  }

  /**
   * A created channel comes after every existing one, keeps the requested type, and
   * is the only new row.
   */
  lemma CreatePlacesLast(rows: seq<ChannelRow>, name: string, kind: string, encrypted: Option<bool>,
                         passwordVerify: Option<string>, passwordVerifyNonce: Option<string>,
                         id: string, now: int)
    requires !CreateFails(rows, kind, id)
    ensures var after := AfterCreate(rows, name, kind, encrypted, passwordVerify, passwordVerifyNonce, id, now);
      && |after| == |rows| + 1 && after[..|rows|] == rows
      && after[|rows|].id == id && ChannelTypeName(after[|rows|].kind) == kind
      && forall i :: 0 <= i < |rows| ==> rows[i].position < after[|rows|].position
  {
  }

  predicate HasOtherId(row: ChannelRow, id: string) {
    row.id != id
  }

  predicate InChannel(m: MessageRow, channelId: string) {
    m.channelId == channelId
  }

  predicate NotInChannel(m: MessageRow, channelId: string) {
    m.channelId != channelId
  }

  /** The cascade keeps the foreign keys: what survives refers only to what survives. */
  lemma CascadeKeepsKeys(channels: seq<ChannelRow>, messages: seq<MessageRow>,
                         attachments: seq<AttachmentRow>, id: string)
    requires MessagesInChannels(messages, channels)
    requires AttachmentsOnMessages(attachments, messages)
    ensures MessagesInChannels(FilterWith(messages, NotInChannel, id), FilterWith(channels, HasOtherId, id))
    ensures AttachmentsOnMessages(
      FilterWith(attachments, NotOnMessages, MessageIds(FilterWith(messages, InChannel, id))),
      FilterWith(messages, NotInChannel, id))
  {
    var cs := FilterWith(channels, HasOtherId, id);
    var ms := FilterWith(messages, NotInChannel, id);
    var gone := MessageIds(FilterWith(messages, InChannel, id));
    forall i | 0 <= i < |ms|
      ensures ms[i].channelId in ChannelIds(cs)
    {
      assert ms[i] in messages;
      var k :| 0 <= k < |messages| && messages[k] == ms[i];
      var c :| c in channels && c.id == messages[k].channelId;
      assert c in cs;
    }
    MessageIdsSplit(messages, InChannel, id, NotInChannel, id);
    CascadeAttachments(attachments, messages, ms, gone);
  }

  /** The cascade of a channel deletion keeps the tables consistent. */
  lemma CascadeConsistent(realm: seq<RealmRow>, channels: seq<ChannelRow>, messages: seq<MessageRow>,
                          attachments: seq<AttachmentRow>, profiles: OMap<string, ProfileRow>,
                          invites: seq<InviteRow>, id: string)
    requires Consistent(realm, channels, messages, attachments, profiles, invites)
    ensures Consistent(realm, FilterWith(channels, HasOtherId, id), FilterWith(messages, NotInChannel, id),
                       FilterWith(attachments, NotOnMessages, MessageIds(FilterWith(messages, InChannel, id))),
                       profiles, invites)
  {
    var gone := MessageIds(FilterWith(messages, InChannel, id));
    CascadeKeepsKeys(channels, messages, attachments, id);
    FilterWithUnique(channels, HasOtherId, id, ChannelKey);
    FilterWithUnique(messages, NotInChannel, id, MessageKey);
    FilterWithUnique(attachments, NotOnMessages, gone, AttachmentKey);
    ReplaceRows(realm, profiles, invites, FilterWith(channels, HasOtherId, id), FilterWith(messages, NotInChannel, id),
                FilterWith(attachments, NotOnMessages, gone));
  }

  /** No row with the deleted id is left. */
  lemma DeletedIdGone(rows: seq<ChannelRow>, id: string)
    ensures id !in ChannelIds(FilterWith(rows, HasOtherId, id))
  {
    forall r | r in FilterWith(rows, HasOtherId, id)
      ensures r.id != id
    {
    }
  }

  /**
   * `deleteChannel`: delete the rows with that id; the foreign keys delete the
   * channel's messages and, with them, their attachments. The result says whether a
   * channel row was deleted.
   */
  method DeleteChannel(db: Database, id: string) returns (deleted: bool)
    requires db.Valid()
    modifies db`channels, db`messages, db`attachments
    ensures db.Valid()
    ensures deleted <==> id in ChannelIds(old(db.channels))
    ensures id !in ChannelIds(db.channels)
    ensures db.channels == FilterWith(old(db.channels), HasOtherId, id)
    ensures db.messages == FilterWith(old(db.messages), NotInChannel, id)
    ensures db.attachments == FilterWith(old(db.attachments), NotOnMessages,
                                         MessageIds(FilterWith(old(db.messages), InChannel, id)))
  {
    var gone := MessageIds(FilterWith(db.messages, InChannel, id));
    var channels := FilterWith(db.channels, HasOtherId, id);
    var messages := FilterWith(db.messages, NotInChannel, id);
    var attachments := FilterWith(db.attachments, NotOnMessages, gone);
    CascadeConsistent(db.realm, db.channels, db.messages, db.attachments, db.profiles, db.invites, id);
    DeletedIdGone(db.channels, id);
    deleted := id in ChannelIds(db.channels);
    StoreTables(db, channels, messages, attachments);
  }

  /** Replace the channel, message and attachment tables with consistent new ones. */
  method StoreTables(db: Database, channels: seq<ChannelRow>, messages: seq<MessageRow>, attachments: seq<AttachmentRow>)
    requires Consistent(db.realm, channels, messages, attachments, db.profiles, db.invites)
    modifies db`channels, db`messages, db`attachments
    ensures db.Valid()
    ensures db.channels == channels && db.messages == messages && db.attachments == attachments
  {
    db.channels, db.messages, db.attachments := channels, messages, attachments;
  }

  /** A row placed past every position is the new largest position. */
  lemma MaxPositionAppend(rows: seq<ChannelRow>, row: ChannelRow)
    requires forall i :: 0 <= i < |rows| ==> rows[i].position < row.position
    ensures MaxPosition(rows + [row]) == row.position
  {
    var all := rows + [row];
    assert all[|rows|] == row;
    var k :| 0 <= k < |all| && all[k].position == MaxPosition(all);
    if k < |rows| {
      assert all[k] == rows[k];
    }
  }

  /** The two rows the default channels add after `rows`: "general" (text), then "voice" (voice). */
  function DefaultRows(rows: seq<ChannelRow>, generalId: string, voiceId: string, now: int): seq<ChannelRow> {
    var m := MaxPosition(rows);
    [NewChannelRow(generalId, "general", Text, false, None, None, m + 1, now),
     NewChannelRow(voiceId, "voice", Voice, false, None, None, m + 2, now)]
  }

  /**
   * `ensureDefaultChannels`: with no public channel, create "general" (text) and then
   * "voice" (voice). A refused insert throws out of `createChannel` and ends the call,
   * so a refused "general" leaves the table as it was and "voice" is never tried.
   */
  method EnsureDefaultChannels(db: Database, generalId: string, voiceId: string, now: int)
    returns (r: Result<(), DbError>)
    requires db.Valid()
    modifies db`channels
    ensures db.Valid()
    ensures GetChannels(old(db.channels)) != [] ==> r.Ok? && db.channels == old(db.channels)
    ensures GetChannels(old(db.channels)) == [] && generalId in ChannelIds(old(db.channels)) ==>
      db.channels == old(db.channels)
    ensures GetChannels(old(db.channels)) == [] && generalId !in ChannelIds(old(db.channels)) ==>
      db.channels == AfterCreate(AfterCreate(old(db.channels), "general", "text", None, None, None, generalId, now),
                                 "voice", "voice", None, None, None, voiceId, now)
    ensures r.Err? <==> (GetChannels(old(db.channels)) == [] &&
      (generalId in ChannelIds(old(db.channels)) || voiceId == generalId || voiceId in ChannelIds(old(db.channels))))
  {
    if GetChannels(db.channels) == [] {
      ghost var rows := db.channels;
      var first := CreateChannel(db, "general", "text", None, None, None, generalId, now);
      if first.Err? {
        r := Err(first.error);
      } else {
        ChannelIdsAppend(rows, NewChannelRow(generalId, "general", Text, false, None, None, MaxPosition(rows) + 1, now));
        var second := CreateChannel(db, "voice", "voice", None, None, None, voiceId, now);
        if second.Err? {
          r := Err(second.error);
        } else {
          r := Ok(());
        }
      }
    } else {
      r := Ok(());
    }
  }

  /** With fresh ids, the defaults are a text channel "general" and then a voice channel "voice", after every existing channel. */
  lemma DefaultsAppended(rows: seq<ChannelRow>, generalId: string, voiceId: string, now: int)
    requires generalId != voiceId && generalId !in ChannelIds(rows) && voiceId !in ChannelIds(rows)
    ensures AfterCreate(AfterCreate(rows, "general", "text", None, None, None, generalId, now),
                        "voice", "voice", None, None, None, voiceId, now)
         == rows + DefaultRows(rows, generalId, voiceId, now)
  {
    var g := NewChannelRow(generalId, "general", Text, false, None, None, MaxPosition(rows) + 1, now);
    ChannelIdsAppend(rows, g);
    MaxPositionAppend(rows, g);
  }

  /** Once a public channel is added, `getChannels` is non-empty: the defaults are made at most once. */
  lemma AddedPublicIsListed(rows: seq<ChannelRow>, row: ChannelRow)
    requires row.kind != Dm
    ensures |GetChannels(rows + [row])| > 0
  {
    GetChannelsComplete(rows + [row], row);
  }

  /** `[keyA, keyB].sort()`: the default order compares strings lexicographically. */
  function SortedPair(a: string, b: string): (r: seq<string>)
    ensures |r| == 2 && LexLe(r[0], r[1])
    ensures multiset(r) == multiset{a, b}
  {
    LexLeTotal(a, b);
    if LexLe(a, b) then [a, b] else [b, a]
  }

  /** The participants column of the DM between `a` and `b`: the sorted keys joined by ":". */
  function DmKey(a: string, b: string): string {
    Join(SortedPair(a, b), ':')
  }

  /** Either order of the two keys gives the same DM key. */
  lemma DmKeySymmetric(a: string, b: string)
    ensures SortedPair(a, b) == SortedPair(b, a)
    ensures DmKey(a, b) == DmKey(b, a)
  {
    LexLeTotal(a, b);
    if LexLe(a, b) && LexLe(b, a) {
      LexLeAntisymmetric(a, b);
    }
  }

  predicate IsDmFor(row: ChannelRow, key: string) {
    row.kind == Dm && row.participants == Some(key)
  }

  /** `SELECT * FROM channels WHERE type = 'dm' AND participants = ?`: the first match. */
  function FindDm(rows: seq<ChannelRow>, key: string): (r: Option<ChannelRow>)
    ensures r.Some? ==> r.value in rows && IsDmFor(r.value, key)
    ensures r.None? ==> forall row :: row in rows ==> !IsDmFor(row, key)
  {
    if |rows| == 0 then None
    else if IsDmFor(rows[0], key) then Some(rows[0])
    else
      assert forall row :: row in rows ==> row == rows[0] || row in rows[1..];
      FindDm(rows[1..], key)
  }

  /** The row `findOrCreateDmChannel` inserts. */
  function NewDmRow(id: string, key: string, now: int): ChannelRow {
    ChannelRow(id, "dm:" + key, Dm, 0, 0, None, None, Some(key), now)
  }

  /**
   * `findOrCreateDmChannel`: the DM channel of the two keys, created on first use. The
   * channel returned for a new DM lists the sorted pair as its participants.
   */
  method FindOrCreateDmChannel(db: Database, keyA: string, keyB: string, id: string, now: int)
    returns (r: Result<Channel, DbError>)
    requires db.Valid()
    modifies db`channels
    ensures db.Valid()
    ensures var key := DmKey(keyA, keyB);
      match FindDm(old(db.channels), key)
      case Some(row) => db.channels == old(db.channels) && r == Ok(RowToChannel(row))
      case None =>
        if id in ChannelIds(old(db.channels)) then r.Err? && db.channels == old(db.channels)
        else
          db.channels == old(db.channels) + [NewDmRow(id, key, now)]
          && r == Ok(Channel(id, "dm:" + key, Dm, false, 0, None, None, now, Some(SortedPair(keyA, keyB))))
    ensures r.Ok? ==> FindDm(db.channels, DmKey(keyA, keyB)).Some?
  {
    var participants := SortedPair(keyA, keyB);
    var key := Join(participants, ':');
    var existing := FindDm(db.channels, key);
    if existing.Some? {
      return Ok(RowToChannel(existing.value));
    }
    if id in ChannelIds(db.channels) {
      return Err(PrimaryKeyFailed);
    }
    var row := NewDmRow(id, key, now);
    ChannelIdsAppend(db.channels, row);
    FindDmAfterInsert(db.channels, key, id, now);
    db.channels := db.channels + [row];
    return Ok(Channel(id, "dm:" + key, Dm, false, 0, None, None, now, Some(participants)));
  }

  /** Once inserted, a DM row is what the next lookup of its key finds, so no second row is made. */
  lemma {:induction false} FindDmAfterInsert(rows: seq<ChannelRow>, key: string, id: string, now: int)
    requires FindDm(rows, key).None?
    ensures FindDm(rows + [NewDmRow(id, key, now)], key) == Some(NewDmRow(id, key, now))
  {
    if |rows| > 0 {
      assert (rows + [NewDmRow(id, key, now)])[1..] == rows[1..] + [NewDmRow(id, key, now)];
      FindDmAfterInsert(rows[1..], key, id, now);
    }
  }

  /** Reading a DM row back splits its key into the participants, for keys without ":". */
  lemma DmParticipantsRoundTrip(a: string, b: string, id: string, now: int)
    requires ':' !in a && ':' !in b
    ensures RowToChannel(NewDmRow(id, DmKey(a, b), now)).participants == Some(SortedPair(a, b))
  {
    var p := SortedPair(a, b);
    assert p[0] in multiset{a, b} && p[1] in multiset{a, b};
    SplitJoin(p, ':');
    assert DmKey(a, b) != "" by {
      assert Join(p, ':') == p[0] + [':'] + p[1];
    }
  }

  /** The participants a channel lists include `publicKey` (`participants?.includes`). */
  predicate ListsParticipant(c: Channel, publicKey: string) {
    c.participants.Some? && publicKey in c.participants.value
  }

  /** `participants LIKE '%key%'`, taken as plain substring matching. */
  predicate LikeMatch(row: ChannelRow, publicKey: string) {
    row.kind == Dm && row.participants.Some? && IsSubstring(publicKey, row.participants.value)
  }

  /** `getDmChannelsForUser`: the `LIKE` pre-filter, then the exact membership test. */
  function DmChannelsFor(rows: seq<ChannelRow>, publicKey: string): (r: seq<Channel>)
    ensures forall i :: 0 <= i < |r| ==> r[i].kind == Dm && ListsParticipant(r[i], publicKey)
  {
    if |rows| == 0 then []
    else
      var c := RowToChannel(rows[0]);
      (if LikeMatch(rows[0], publicKey) && ListsParticipant(c, publicKey) then [c] else [])
      + DmChannelsFor(rows[1..], publicKey)
  }

  /** A DM channel that lists the key always passes the `LIKE` pre-filter. */
  lemma ListedPassesLike(row: ChannelRow, publicKey: string)
    requires row.kind == Dm && ListsParticipant(RowToChannel(row), publicKey)
    ensures LikeMatch(row, publicKey)
  {
    SplitPiecesAreSubstrings(row.participants.value, ':', publicKey);
  }

  /** `getDmChannelsForUser` returns exactly the DM channels that list the key. */
  lemma {:induction false} DmChannelsForExact(rows: seq<ChannelRow>, publicKey: string)
    ensures forall c :: c in DmChannelsFor(rows, publicKey) <==>
      exists row :: row in rows && row.kind == Dm && c == RowToChannel(row) && ListsParticipant(c, publicKey)
  {
    if |rows| > 0 {
      DmChannelsForExact(rows[1..], publicKey);
      if rows[0].kind == Dm && ListsParticipant(RowToChannel(rows[0]), publicKey) {
        ListedPassesLike(rows[0], publicKey);
      }
      assert forall row :: row in rows <==> row == rows[0] || row in rows[1..];
    }
  }

  /** `setChannelPasswordVerify`: store both values on the rows with that id. */
  function SetVerifyRows(rows: seq<ChannelRow>, id: string, ciphertext: string, nonce: string): (r: seq<ChannelRow>)
    ensures |r| == |rows|
    ensures forall i :: 0 <= i < |rows| ==>
      r[i] == if rows[i].id == id
              then rows[i].(passwordVerify := Some(ciphertext), passwordVerifyNonce := Some(nonce))
              else rows[i]
  {
    seq(|rows|, i requires 0 <= i < |rows| =>
      if rows[i].id == id then rows[i].(passwordVerify := Some(ciphertext), passwordVerifyNonce := Some(nonce))
      else rows[i])
  }

  method SetChannelPasswordVerify(db: Database, id: string, ciphertext: string, nonce: string)
    requires db.Valid()
    modifies db`channels
    ensures db.Valid()
    ensures db.channels == SetVerifyRows(old(db.channels), id, ciphertext, nonce)
    ensures ChannelIds(db.channels) == ChannelIds(old(db.channels))
  {
    var before := db.channels;
    db.channels := SetVerifyRows(db.channels, id, ciphertext, nonce);
    assert forall x :: x in ChannelIds(before) <==> x in ChannelIds(db.channels) by {
      forall x | x in ChannelIds(before) ensures x in ChannelIds(db.channels) {
        var k :| 0 <= k < |before| && before[k].id == x;
        assert db.channels[k].id == x;
      }
      forall x | x in ChannelIds(db.channels) ensures x in ChannelIds(before) {
        var k :| 0 <= k < |db.channels| && db.channels[k].id == x;
        assert before[k].id == x;
      }
    }
  }
}
