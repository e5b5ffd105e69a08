/**
 * Retention: the daily pruning of messages and attachments older than the realm's
 * retention settings, and of upload files no attachment refers to. The settings are
 * read from the realm row (`getRealmInfo`, which ensures the row); the clock, the
 * ids a first-boot row would take and the upload directory's listing are parameters; deleting a
 * physical file is reported as the list of storage paths handed to the cleanup.
 */
module Retention {
  import opened Wrappers
  import opened Sequences
  import opened Tables
  import opened OrderedMaps
  import opened Config
  import opened Realm

  /** `DAY_MS`: one day in milliseconds. */
  const DayMs: int := 24 * 60 * 60 * 1000

  /** A retention setting takes effect only when truthy: null and 0 both mean "keep forever". */
  predicate IsSet(days: Option<int>) {
    days.Some? && days.value != 0
  }

  function Cutoff(now: int, days: int): int {
    now - days * DayMs
  }

  predicate OlderThan(m: MessageRow, cutoff: int) {
    m.createdAt < cutoff
  }

  predicate NotOlderThan(m: MessageRow, cutoff: int) {
    m.createdAt >= cutoff
  }

  /** An attachment on one of the messages with ids `ids` (the `JOIN`). */
  predicate OnMessages(a: AttachmentRow, ids: set<string>) {
    a.messageId.Some? && a.messageId.value in ids
  }

  function StoragePaths(rows: seq<AttachmentRow>): (r: seq<string>)
    ensures |r| == |rows| && forall i :: 0 <= i < |rows| ==> r[i] == rows[i].storagePath
  {
    seq(|rows|, i requires 0 <= i < |rows| => rows[i].storagePath)
  }

  /** Keeping only some rows keeps every message in an existing channel. */
  lemma FilteredMessagesInChannels<A>(messages: seq<MessageRow>, channels: seq<ChannelRow>,
                                      p: (MessageRow, A) -> bool, a: A)
    requires MessagesInChannels(messages, channels)
    ensures MessagesInChannels(FilterWith(messages, p, a), channels)
  {
    var kept := FilterWith(messages, p, a);
    forall i | 0 <= i < |kept|
      ensures kept[i].channelId in ChannelIds(channels)
    {
      assert kept[i] in messages;
    }
  }

  /**
   * Deleting the messages older than the cutoff, with their attachments, keeps the
   * tables consistent; every message left is recent enough, and the deleted and the
   * kept messages add up to the old table.
   */
  lemma PruneConsistent(realm: seq<RealmRow>, channels: seq<ChannelRow>, messages: seq<MessageRow>,
                        attachments: seq<AttachmentRow>, profiles: OMap<string, ProfileRow>,
                        invites: seq<InviteRow>, cutoff: int)
    requires Consistent(realm, channels, messages, attachments, profiles, invites)
    ensures var kept := FilterWith(messages, NotOlderThan, cutoff);
      && Consistent(realm, channels, kept,
                    FilterWith(attachments, NotOnMessages, MessageIds(FilterWith(messages, OlderThan, cutoff))),
                    profiles, invites)
      && |FilterWith(messages, OlderThan, cutoff)| + |kept| == |messages|
      && forall i :: 0 <= i < |kept| ==> kept[i].createdAt >= cutoff
  {
    var kept := FilterWith(messages, NotOlderThan, cutoff);
    var gone := MessageIds(FilterWith(messages, OlderThan, cutoff));
    FilterWithPartition(messages, OlderThan, cutoff, NotOlderThan, cutoff);
    MessageIdsSplit(messages, NotOlderThan, cutoff, OlderThan, cutoff);
    CascadeAttachments(attachments, messages, kept, gone);
    FilteredMessagesInChannels(messages, channels, NotOlderThan, cutoff);
    FilterWithUnique(messages, NotOlderThan, cutoff, MessageKey);
    FilterWithUnique(attachments, NotOnMessages, gone, AttachmentKey);
    forall i | 0 <= i < |kept|
      ensures kept[i].createdAt >= cutoff
    {
      assert kept[i] in kept;
    }
  }

  /**
   * `pruneOldMessages`: the realm's `retentionDays` is read through `getRealmInfo()`,
   * which ensures the realm row (and the default invite) first; then the messages are
   * pruned as `PruneMessages` states.
   */
  method PruneOldMessages(db: Database, cfg: ServerConfig, realmId: string, now: int,
                          inviteId: string, inviteKey: string)
    returns (deleted: int, queued: seq<string>)
    requires db.Valid()
    modifies db`realm, db`invites, db`messages, db`attachments
    ensures db.Valid()
    ensures db.realm == Ensured(old(db.realm), cfg, realmId, now)
    ensures old(db.invites) == [] ==> db.invites == [InviteRow(inviteId, inviteKey, now)]
    ensures old(db.invites) != [] ==> db.invites == old(db.invites)
    ensures var days := RowToRealmInfo(Ensured(old(db.realm), cfg, realmId, now)[0]).retentionDays;
      !IsSet(days) ==>
        deleted == 0 && queued == [] && db.messages == old(db.messages) && db.attachments == old(db.attachments)
    ensures var days := RowToRealmInfo(Ensured(old(db.realm), cfg, realmId, now)[0]).retentionDays;
      IsSet(days) ==>
        var cutoff := Cutoff(now, days.value);
        var gone := MessageIds(FilterWith(old(db.messages), OlderThan, cutoff));
        && db.messages == FilterWith(old(db.messages), NotOlderThan, cutoff)
        && deleted == |FilterWith(old(db.messages), OlderThan, cutoff)|
        && db.attachments == FilterWith(old(db.attachments), NotOnMessages, gone)
        && queued == StoragePaths(FilterWith(old(db.attachments), OnMessages, gone))
  {
    var realm := EnsureRealm(db, cfg, realmId, now, inviteId, inviteKey);
    deleted, queued := PruneMessages(db, realm.retentionDays, now);
  }

  /**
   * The body of `pruneOldMessages` once the setting is read: with retention set,
   * delete the messages created before the cutoff (their attachments go with them
   * through the foreign key) and return how many messages were deleted; `queued` are
   * the storage paths of the attachments on them, handed to the file cleanup.
   */
  method PruneMessages(db: Database, retentionDays: Option<int>, now: int)
    returns (deleted: int, queued: seq<string>)
    requires db.Valid()
    modifies db`messages, db`attachments
    ensures db.Valid()
    ensures !IsSet(retentionDays) ==>
      deleted == 0 && queued == [] && db.messages == old(db.messages) && db.attachments == old(db.attachments)
    ensures IsSet(retentionDays) ==>
      var cutoff := Cutoff(now, retentionDays.value);
      var gone := MessageIds(FilterWith(old(db.messages), OlderThan, cutoff));
      && db.messages == FilterWith(old(db.messages), NotOlderThan, cutoff)
      && deleted == |FilterWith(old(db.messages), OlderThan, cutoff)|
      && deleted + |db.messages| == |old(db.messages)|
      && db.attachments == FilterWith(old(db.attachments), NotOnMessages, gone)
      && queued == StoragePaths(FilterWith(old(db.attachments), OnMessages, gone))
    ensures forall i :: 0 <= i < |db.messages| && IsSet(retentionDays) ==>
      db.messages[i].createdAt >= Cutoff(now, retentionDays.value)
  {
    deleted, queued := 0, [];
    if IsSet(retentionDays) {
      var cutoff := Cutoff(now, retentionDays.value);
      var expired := FilterWith(db.messages, OlderThan, cutoff);
      var gone := MessageIds(expired);
      queued := StoragePaths(FilterWith(db.attachments, OnMessages, gone));
      PruneConsistent(db.realm, db.channels, db.messages, db.attachments, db.profiles, db.invites, cutoff);
      db.messages := FilterWith(db.messages, NotOlderThan, cutoff);
      db.attachments := FilterWith(db.attachments, NotOnMessages, gone);
      deleted := |expired|;
    }
  }

  /** An attachment whose creation time is known and before the cutoff (`NULL < x` is not true). */
  predicate Expired(a: AttachmentRow, cutoff: int) {
    a.createdAt.Some? && a.createdAt.value < cutoff
  }

  predicate NotExpired(a: AttachmentRow, cutoff: int) {
    !Expired(a, cutoff)
  }

  predicate IdNotIn(a: AttachmentRow, ids: set<string>) {
    a.id !in ids
  }

  function AttachmentIds(rows: seq<AttachmentRow>): set<string> {
    set a | a in rows :: a.id
  }

  /** With unique ids, deleting the expired rows by id deletes exactly the expired rows. */
  lemma DeleteByIdsIsExact(rows: seq<AttachmentRow>, cutoff: int)
    requires UniqueBy(rows, AttachmentKey)
    ensures FilterWith(rows, IdNotIn, AttachmentIds(FilterWith(rows, Expired, cutoff)))
         == FilterWith(rows, NotExpired, cutoff)
  {
    var expired := FilterWith(rows, Expired, cutoff);
    var ids := AttachmentIds(expired);
    forall i | 0 <= i < |rows|
      ensures IdNotIn(rows[i], ids) <==> NotExpired(rows[i], cutoff)
    {
      if Expired(rows[i], cutoff) {
        assert rows[i] in expired;
      }
      if rows[i].id in ids {
        var e :| e in expired && e.id == rows[i].id;
        var j :| 0 <= j < |rows| && rows[j] == e;
        assert AttachmentKey(rows[j]) == AttachmentKey(rows[i]);
        assert i == j;
      }
    }
    FilterWithCongruent(rows, IdNotIn, ids, NotExpired, cutoff);
  }

  lemma NoneExpired(rows: seq<AttachmentRow>, cutoff: int)
    requires FilterWith(rows, Expired, cutoff) == []
    ensures FilterWith(rows, NotExpired, cutoff) == rows
  {
    forall i | 0 <= i < |rows|
      ensures NotExpired(rows[i], cutoff)
    {
      assert rows[i] in rows;
    }
    FilterWithAll(rows, NotExpired, cutoff);
  }

  /** Keeping only some attachments keeps every attachment on an existing message. */
  lemma FilteredAttachmentsOnMessages<A>(attachments: seq<AttachmentRow>, messages: seq<MessageRow>,
                                         p: (AttachmentRow, A) -> bool, a: A)
    requires AttachmentsOnMessages(attachments, messages)
    ensures AttachmentsOnMessages(FilterWith(attachments, p, a), messages)
  {
    var left := FilterWith(attachments, p, a);
    forall i | 0 <= i < |left| && left[i].messageId.Some?
      ensures left[i].messageId.value in MessageIds(messages)
    {
      assert left[i] in attachments;
      var k :| 0 <= k < |attachments| && attachments[k] == left[i];
    }
  }

  /** Deleting the expired attachments by id keeps the table's keys and leaves the rest. */
  lemma DeleteExpired(rows: seq<AttachmentRow>, messages: seq<MessageRow>, cutoff: int)
    requires UniqueBy(rows, AttachmentKey) && AttachmentsOnMessages(rows, messages)
    ensures var left := FilterWith(rows, IdNotIn, AttachmentIds(FilterWith(rows, Expired, cutoff)));
      && left == FilterWith(rows, NotExpired, cutoff)
      && |FilterWith(rows, Expired, cutoff)| + |left| == |rows|
      && UniqueBy(left, AttachmentKey)
      && AttachmentsOnMessages(left, messages)
  {
    var ids := AttachmentIds(FilterWith(rows, Expired, cutoff));
    DeleteByIdsIsExact(rows, cutoff);
    FilterWithPartition(rows, Expired, cutoff, NotExpired, cutoff);
    FilterWithUnique(rows, IdNotIn, ids, AttachmentKey);
    FilteredAttachmentsOnMessages(rows, messages, IdNotIn, ids);
  }

  /**
   * `pruneOldFiles`: the realm's `fileRetentionDays` is read through `getRealmInfo()`,
   * which ensures the realm row (and the default invite) first; then the attachments
   * are pruned as `PruneFiles` states.
   */
  method PruneOldFiles(db: Database, cfg: ServerConfig, realmId: string, now: int,
                       inviteId: string, inviteKey: string)
    returns (count: int, queued: seq<string>)
    requires db.Valid()
    modifies db`realm, db`invites, db`attachments
    ensures db.Valid()
    ensures db.realm == Ensured(old(db.realm), cfg, realmId, now)
    ensures old(db.invites) == [] ==> db.invites == [InviteRow(inviteId, inviteKey, now)]
    ensures old(db.invites) != [] ==> db.invites == old(db.invites)
    ensures var days := RowToRealmInfo(Ensured(old(db.realm), cfg, realmId, now)[0]).fileRetentionDays;
      !IsSet(days) ==> count == 0 && queued == [] && db.attachments == old(db.attachments)
    ensures var days := RowToRealmInfo(Ensured(old(db.realm), cfg, realmId, now)[0]).fileRetentionDays;
      IsSet(days) ==>
        var cutoff := Cutoff(now, days.value);
        && db.attachments == FilterWith(old(db.attachments), NotExpired, cutoff)
        && queued == StoragePaths(FilterWith(old(db.attachments), Expired, cutoff))
        && count == |queued|
  {
    var realm := EnsureRealm(db, cfg, realmId, now, inviteId, inviteKey);
    count, queued := PruneFiles(db, realm.fileRetentionDays, now);
  }

  /**
   * The body of `pruneOldFiles` once the setting is read: with file retention set,
   * delete the attachments created before the cutoff and return how many there were;
   * `queued` are their storage paths.
   */
  method PruneFiles(db: Database, fileRetentionDays: Option<int>, now: int)
    returns (count: int, queued: seq<string>)
    requires db.Valid()
    modifies db`attachments
    ensures db.Valid()
    ensures !IsSet(fileRetentionDays) ==> count == 0 && queued == [] && db.attachments == old(db.attachments)
    ensures IsSet(fileRetentionDays) ==>
      var cutoff := Cutoff(now, fileRetentionDays.value);
      && db.attachments == FilterWith(old(db.attachments), NotExpired, cutoff)
      && queued == StoragePaths(FilterWith(old(db.attachments), Expired, cutoff))
      && count == |queued|
      && count + |db.attachments| == |old(db.attachments)|
  {
    count, queued := 0, [];
    if IsSet(fileRetentionDays) {
      var cutoff := Cutoff(now, fileRetentionDays.value);
      var expired := FilterWith(db.attachments, Expired, cutoff);
      if expired == [] {
        NoneExpired(db.attachments, cutoff);
      } else {
        var ids := AttachmentIds(expired);
        DeleteExpired(db.attachments, db.messages, cutoff);
        ReplaceRows(db.realm, db.profiles, db.invites, db.channels, db.messages,
                    FilterWith(db.attachments, IdNotIn, ids));
        db.attachments := FilterWith(db.attachments, IdNotIn, ids);
        queued := StoragePaths(expired);
        count := |expired|;
      }
    }
  }

  /** `path.join(uploadsDir, file)` for a plain file name. */
  function JoinPath(dir: string, file: string): string {
    dir + "/" + file
  }

  /** `SELECT 1 FROM attachments WHERE storage_path = ? OR id = ?`. */
  predicate Referenced(rows: seq<AttachmentRow>, path: string, file: string) {
    exists i :: 0 <= i < |rows| && (rows[i].storagePath == path || rows[i].id == file)
  }

  /**
   * The files `pruneOrphanedFiles` deletes, in listing order: those no attachment
   * refers to, except those whose unlink fails (`unlinkFails`).
   */
  function Orphans(rows: seq<AttachmentRow>, dir: string, files: seq<string>, unlinkFails: set<string>): seq<string> {
    if |files| == 0 then []
    else
      var last := files[|files| - 1];
      var path := JoinPath(dir, last);
      Orphans(rows, dir, files[..|files| - 1], unlinkFails)
      + (if !Referenced(rows, path, last) && path !in unlinkFails then [path] else [])
  }

  /**
   * An orphan sweep never deletes a file an attachment refers to, and deletes every
   * unreferenced listed file it can.
   */
  lemma {:induction false} OrphansExact(rows: seq<AttachmentRow>, dir: string, files: seq<string>,
                                        unlinkFails: set<string>)
    ensures forall p :: p in Orphans(rows, dir, files, unlinkFails) ==>
      p !in unlinkFails && forall i :: 0 <= i < |rows| ==> rows[i].storagePath != p
    ensures forall f :: f in files && !Referenced(rows, JoinPath(dir, f), f) && JoinPath(dir, f) !in unlinkFails ==>
      JoinPath(dir, f) in Orphans(rows, dir, files, unlinkFails)
  {
    if |files| > 0 {
      var init := files[..|files| - 1];
      OrphansExact(rows, dir, init, unlinkFails);
      assert forall f :: f in files ==> f in init || f == files[|files| - 1];
    }
  }

  /**
   * `pruneOrphanedFiles`: with local storage and an existing upload directory, delete
   * each listed file no attachment refers to by path or by id, and count the deletions
   * that succeed. The database is not changed. `uploadsDir` is the data directory's
   * `uploads` subdirectory, `uploadsExists` whether it exists, `files` its listing and
   * `unlinkFails` the paths whose deletion fails.
   */
  method PruneOrphanedFiles(db: Database, cfg: ServerConfig, uploadsExists: bool, uploadsDir: string,
                            files: seq<string>, unlinkFails: set<string>)
    returns (cleaned: int, unlinked: seq<string>)
    ensures cfg.s3Enabled || !uploadsExists ==> cleaned == 0 && unlinked == []
    ensures !cfg.s3Enabled && uploadsExists ==> unlinked == Orphans(db.attachments, uploadsDir, files, unlinkFails)
    ensures cleaned == |unlinked|
  {
    if cfg.s3Enabled {
      return 0, [];
    }
    if !uploadsExists {
      return 0, [];
    }
    cleaned := 0;
    unlinked := [];
    for i := 0 to |files|
      invariant unlinked == Orphans(db.attachments, uploadsDir, files[..i], unlinkFails)
      invariant cleaned == |unlinked|
    {
      var file := files[i];
      var path := JoinPath(uploadsDir, file);
      assert files[..i + 1][..i] == files[..i];
      if !Referenced(db.attachments, path, file) {
        if path !in unlinkFails {
          unlinked := unlinked + [path];
          cleaned := cleaned + 1;
        }
      }
    }
    assert files[..|files|] == files;
  }
}
