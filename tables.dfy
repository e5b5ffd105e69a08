/**
 * The SQLite tables the server reads and writes, as sequences of rows in table
 * order (profiles as an insertion-ordered map keyed by their primary key). The
 * schema's constraints that the operations depend on are the invariant `Valid`:
 * at most one realm row, message and attachment ids unique, every message in an
 * existing channel and every attachment on an existing message (the foreign keys
 * are enforced, and deleting a row deletes the rows that refer to it).
 */
module Tables {
  import opened Wrappers
  import opened OrderedMaps
  import opened Protocol
  import opened Sequences

  datatype RealmRow = RealmRow(
    id: string,
    name: string,
    description: Option<string>,
    encrypted: int,
    retentionDays: Option<int>,
    fileRetentionDays: Option<int>,
    allowDm: int,
    passwordVerify: Option<string>,
    passwordVerifyNonce: Option<string>,
    createdAt: int)

  datatype ChannelRow = ChannelRow(
    id: string,
    name: string,
    kind: ChannelType,
    encrypted: int,
    position: int,
    passwordVerify: Option<string>,
    passwordVerifyNonce: Option<string>,
    participants: Option<string>,
    createdAt: int)

  datatype MessageRow = MessageRow(
    id: string,
    channelId: string,
    senderPublicKey: string,
    content: string,
    signature: string,
    nonce: string,
    hasAttachment: int,
    createdAt: int)

  datatype AttachmentRow = AttachmentRow(
    id: string,
    messageId: Option<string>,
    filename: string,
    mimeType: string,
    size: int,
    storagePath: string,
    createdAt: Option<int>)

  datatype ProfileRow = ProfileRow(publicKey: string, name: string, bio: Option<string>, lastSeen: int)

  datatype InviteRow = InviteRow(id: string, key: string, createdAt: int)

  /** A constraint violation: the statement throws and changes nothing. */
  datatype DbError = ForeignKeyFailed | PrimaryKeyFailed | CheckFailed

  function ChannelIds(rows: seq<ChannelRow>): set<string> {
    set r | r in rows :: r.id
  }

  function MessageIds(rows: seq<MessageRow>): set<string> {
    set r | r in rows :: r.id
  }

  /** The primary keys of the tables whose operations rely on them. */
  function ChannelKey(r: ChannelRow): string { r.id }
  function MessageKey(r: MessageRow): string { r.id }
  function AttachmentKey(r: AttachmentRow): string { r.id }
  function InviteKey(r: InviteRow): string { r.id }

  /** `messages.channel_id REFERENCES channels(id)`. */
  ghost predicate MessagesInChannels(messages: seq<MessageRow>, channels: seq<ChannelRow>) {
    forall i :: 0 <= i < |messages| ==> messages[i].channelId in ChannelIds(channels)
  }

  /** `attachments.message_id REFERENCES messages(id)` (a null message id is allowed). */
  ghost predicate AttachmentsOnMessages(attachments: seq<AttachmentRow>, messages: seq<MessageRow>) {
    forall i :: 0 <= i < |attachments| && attachments[i].messageId.Some? ==>
      attachments[i].messageId.value in MessageIds(messages)
  }

  /** `user_profiles.public_key` is the primary key. */
  ghost predicate ProfilesKeyed(profiles: OMap<string, ProfileRow>) {
    profiles.Valid() && forall k :: k in profiles.vals ==> profiles.vals[k].publicKey == k
  }

  /** An attachment that survives the deletion of the messages with ids `gone`. */
  predicate NotOnMessages(a: AttachmentRow, gone: set<string>) {
    a.messageId.None? || a.messageId.value !in gone
  }

  /** When every message passes one of two tests, their ids are split between the two filters. */
  lemma MessageIdsSplit<A, B>(rows: seq<MessageRow>, p: (MessageRow, A) -> bool, a: A,
                              q: (MessageRow, B) -> bool, b: B)
    requires forall i :: 0 <= i < |rows| ==> p(rows[i], a) || q(rows[i], b)
    ensures MessageIds(rows) <= MessageIds(FilterWith(rows, p, a)) + MessageIds(FilterWith(rows, q, b))
  {
    forall x | x in MessageIds(rows)
      ensures x in MessageIds(FilterWith(rows, p, a)) + MessageIds(FilterWith(rows, q, b))
    {
      var k :| 0 <= k < |rows| && rows[k].id == x;
      if p(rows[k], a) {
        assert rows[k] in FilterWith(rows, p, a);
      } else {
        assert rows[k] in FilterWith(rows, q, b);
      }
    }
  }

  /**
   * Deleting messages cascades to their attachments: once the attachments on the
   * deleted messages are gone, every remaining attachment is on a remaining message.
   */
  lemma CascadeAttachments(attachments: seq<AttachmentRow>, messages: seq<MessageRow>,
                           kept: seq<MessageRow>, gone: set<string>)
    requires AttachmentsOnMessages(attachments, messages)
    requires MessageIds(messages) <= MessageIds(kept) + gone
    ensures AttachmentsOnMessages(FilterWith(attachments, NotOnMessages, gone), kept)
  {
    var left := FilterWith(attachments, NotOnMessages, gone);
    forall i | 0 <= i < |left| && left[i].messageId.Some?
      ensures left[i].messageId.value in MessageIds(kept)
    {
      assert left[i] in attachments;
      var k :| 0 <= k < |attachments| && attachments[k] == left[i];
    }
  }

  /** The constraints of the schema that the operations rely on. */
  ghost predicate Consistent(realm: seq<RealmRow>, channels: seq<ChannelRow>, messages: seq<MessageRow>,
                             attachments: seq<AttachmentRow>, profiles: OMap<string, ProfileRow>,
                             invites: seq<InviteRow>)
  {
    |realm| <= 1
    && UniqueBy(channels, ChannelKey)
    && UniqueBy(messages, MessageKey)
    && UniqueBy(attachments, AttachmentKey)
    && UniqueBy(invites, InviteKey)
    && MessagesInChannels(messages, channels)
    && AttachmentsOnMessages(attachments, messages)
    && ProfilesKeyed(profiles)
  }

  /**
   * New channel, message and attachment tables that keep the keys unique and the
   * references intact keep the tables consistent.
   */
  lemma ReplaceRows(realm: seq<RealmRow>, profiles: OMap<string, ProfileRow>, invites: seq<InviteRow>,
                    channels: seq<ChannelRow>, messages: seq<MessageRow>, attachments: seq<AttachmentRow>)
    requires |realm| <= 1 && ProfilesKeyed(profiles) && UniqueBy(invites, InviteKey)
    requires UniqueBy(channels, ChannelKey) && UniqueBy(messages, MessageKey) && UniqueBy(attachments, AttachmentKey)
    requires MessagesInChannels(messages, channels) && AttachmentsOnMessages(attachments, messages)
    ensures Consistent(realm, channels, messages, attachments, profiles, invites)
  {
  }

  class Database {
    var realm: seq<RealmRow>
    var channels: seq<ChannelRow>
    var messages: seq<MessageRow>
    var attachments: seq<AttachmentRow>
    var profiles: OMap<string, ProfileRow>
    var invites: seq<InviteRow>

    ghost predicate Valid()
      reads this
    {
      Consistent(realm, channels, messages, attachments, profiles, invites)
    }

    /** A freshly created database file: every table empty. */
    constructor ()
      ensures Valid()
      ensures realm == [] && channels == [] && messages == [] && attachments == [] && invites == []
      ensures profiles == Empty()
    {
      realm := [];
      channels := [];
      messages := [];
      attachments := [];
      profiles := Empty();
      invites := [];
    }
  }
}
