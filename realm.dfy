/**
 * The realm row: created from the configuration on first boot, brought back in line
 * with the configuration at startup, and edited by admins. The table holds at most
 * one row; every update statement applies to all of its rows.
 */
module Realm {
  import opened Wrappers
  import opened Protocol
  import opened Tables
  import opened OrderedMaps
  import opened Config
  import opened Invites

  /** `rowToRealmInfo`: the 0/1 columns become booleans, NULLs become absent fields. */
  function RowToRealmInfo(row: RealmRow): RealmInfo {
    RealmInfo(row.id, row.name, row.description, row.encrypted == 1, row.retentionDays,
              row.fileRetentionDays, row.allowDm == 1, row.passwordVerify,
              row.passwordVerifyNonce, row.createdAt)
  }

  function Flag(b: bool): int {
    if b then 1 else 0
  }

  /** The row `ensureRealm` inserts on first boot; the password columns start NULL. */
  function NewRealmRow(cfg: ServerConfig, id: string, now: int): (row: RealmRow)
    ensures var info := RowToRealmInfo(row);
      && info.id == id && info.name == cfg.realmName && info.description == Some(cfg.realmDescription)
      && info.encrypted == cfg.encrypted && info.allowDirectMessages == cfg.allowDirectMessages
      && info.retentionDays == cfg.retentionDays && info.fileRetentionDays == cfg.fileRetentionDays
      && info.passwordVerify.None? && info.passwordVerifyNonce.None? && info.createdAt == now
  {
    RealmRow(id, cfg.realmName, Some(cfg.realmDescription), Flag(cfg.encrypted), cfg.retentionDays,
             cfg.fileRetentionDays, Flag(cfg.allowDirectMessages), None, None, now)
  }

  /** New realm rows, no more than one, keep the tables consistent. */
  lemma ReplaceRealm(realm: seq<RealmRow>, channels: seq<ChannelRow>, messages: seq<MessageRow>,
                     attachments: seq<AttachmentRow>, profiles: OMap<string, ProfileRow>,
                     invites: seq<InviteRow>, realm': seq<RealmRow>)
    requires Consistent(realm, channels, messages, attachments, profiles, invites)
    requires |realm'| <= 1
    ensures Consistent(realm', channels, messages, attachments, profiles, invites)
  {
  }

  /** The realm table after `ensureRealm`: the stored row, or the configured one. */
  function Ensured(realm: seq<RealmRow>, cfg: ServerConfig, id: string, now: int): seq<RealmRow> {
    if realm == [] then [NewRealmRow(cfg, id, now)] else realm
  }

  /** After `ensureRealm` there is exactly one realm row, and an existing one is kept. */
  lemma EnsuredHasOneRow(realm: seq<RealmRow>, cfg: ServerConfig, id: string, now: int)
    requires |realm| <= 1
    ensures |Ensured(realm, cfg, id, now)| == 1
    ensures realm != [] ==> Ensured(realm, cfg, id, now)[0] == realm[0]
    ensures Ensured(Ensured(realm, cfg, id, now), cfg, id, now) == Ensured(realm, cfg, id, now)
  {
  }

  /**
   * `ensureRealm`: insert the configured realm row when there is none, make sure an
   * invite link exists, and describe the realm. `id`, `inviteId` and `inviteKey` are
   * the uuids it would draw and `now` the clock.
   */
  method EnsureRealm(db: Database, cfg: ServerConfig, id: string, now: int, inviteId: string, inviteKey: string)
    returns (info: RealmInfo)
    requires db.Valid()
    modifies db`realm, db`invites
    ensures db.Valid()
    ensures db.realm == Ensured(old(db.realm), cfg, id, now)
    ensures |db.realm| == 1 && info == RowToRealmInfo(db.realm[0])
    ensures db.invites != []
    ensures old(db.invites) == [] ==> db.invites == [InviteRow(inviteId, inviteKey, now)]
    ensures old(db.invites) != [] ==> db.invites == old(db.invites)
  {
    if db.realm == [] {
      ReplaceRealm(db.realm, db.channels, db.messages, db.attachments, db.profiles, db.invites,
                   [NewRealmRow(cfg, id, now)]);
      db.realm := [NewRealmRow(cfg, id, now)];
    }
    EnsureDefaultInvite(db, inviteId, inviteKey, now);
    info := RowToRealmInfo(db.realm[0]);
  }

  /** The fields `updateRealm` may change; an absent field is left alone. */
  datatype RealmPatch = RealmPatch(
    name: Option<string>,
    description: Option<string>,
    allowDirectMessages: Option<bool>,
    retentionDays: Option<Option<int>>,
    fileRetentionDays: Option<Option<int>>)

  /** The five conditional `UPDATE realm SET …` statements, applied to one row. */
  function ApplyUpdate(row: RealmRow, u: RealmPatch): RealmRow {
    row.(name := if u.name.Some? then u.name.value else row.name,
         description := if u.description.Some? then Some(u.description.value) else row.description,
         allowDm := if u.allowDirectMessages.Some? then Flag(u.allowDirectMessages.value) else row.allowDm,
         retentionDays := if u.retentionDays.Some? then u.retentionDays.value else row.retentionDays,
         fileRetentionDays := if u.fileRetentionDays.Some? then u.fileRetentionDays.value else row.fileRetentionDays)
  }

  function UpdateRows(rows: seq<RealmRow>, u: RealmPatch): (r: seq<RealmRow>)
    ensures |r| == |rows| && forall i :: 0 <= i < |rows| ==> r[i] == ApplyUpdate(rows[i], u)
  {
    seq(|rows|, i requires 0 <= i < |rows| => ApplyUpdate(rows[i], u))
  }

  /**
   * What the realm reports after an update: each given field takes its new value, each
   * absent one and the identity, encryption and password columns keep their old value.
   */
  lemma UpdateReflected(row: RealmRow, u: RealmPatch)
    ensures var before := RowToRealmInfo(row);
      var info := RowToRealmInfo(ApplyUpdate(row, u));
      && info.name == u.name.GetOr(before.name)
      && info.description == (if u.description.Some? then Some(u.description.value) else before.description)
      && info.allowDirectMessages == u.allowDirectMessages.GetOr(before.allowDirectMessages)
      && info.retentionDays == u.retentionDays.GetOr(before.retentionDays)
      && info.fileRetentionDays == u.fileRetentionDays.GetOr(before.fileRetentionDays)
      && info.id == before.id && info.createdAt == before.createdAt && info.encrypted == before.encrypted
      && info.passwordVerify == before.passwordVerify && info.passwordVerifyNonce == before.passwordVerifyNonce
  {
  }

  /** The update of `u2` overriding that of `u1` field by field. */
  function Then(u1: RealmPatch, u2: RealmPatch): RealmPatch {
    RealmPatch(
      if u2.name.Some? then u2.name else u1.name,
      if u2.description.Some? then u2.description else u1.description,
      if u2.allowDirectMessages.Some? then u2.allowDirectMessages else u1.allowDirectMessages,
      if u2.retentionDays.Some? then u2.retentionDays else u1.retentionDays,
      if u2.fileRetentionDays.Some? then u2.fileRetentionDays else u1.fileRetentionDays)
  }

  /** Two updates in a row are one merged update; in particular repeating an update changes nothing more. */
  lemma UpdatesCompose(row: RealmRow, u1: RealmPatch, u2: RealmPatch)
    ensures ApplyUpdate(ApplyUpdate(row, u1), u2) == ApplyUpdate(row, Then(u1, u2))
    ensures ApplyUpdate(ApplyUpdate(row, u1), u1) == ApplyUpdate(row, u1)
  {
  }

  /**
   * `updateRealm`: apply the given fields to the realm row, then `ensureRealm`. On a
   * database with no realm row the update touches nothing and the configured row is
   * what gets inserted.
   */
  method UpdateRealm(db: Database, u: RealmPatch, cfg: ServerConfig, id: string, now: int,
                     inviteId: string, inviteKey: string)
    returns (info: RealmInfo)
    requires db.Valid()
    modifies db`realm, db`invites
    ensures db.Valid()
    ensures db.realm == Ensured(UpdateRows(old(db.realm), u), cfg, id, now)
    ensures |db.realm| == 1 && info == RowToRealmInfo(db.realm[0])
    ensures old(db.realm) != [] ==> db.realm == [ApplyUpdate(old(db.realm)[0], u)]
    ensures old(db.invites) == [] ==> db.invites == [InviteRow(inviteId, inviteKey, now)]
    ensures old(db.invites) != [] ==> db.invites == old(db.invites)
  {
    ReplaceRealm(db.realm, db.channels, db.messages, db.attachments, db.profiles, db.invites,
                 UpdateRows(db.realm, u));
    db.realm := UpdateRows(db.realm, u);
    info := EnsureRealm(db, cfg, id, now, inviteId, inviteKey);
  }

  /** `UPDATE realm SET password_verify = ?, password_verify_nonce = ?` on every row. */
  function SetVerify(rows: seq<RealmRow>, ciphertext: string, nonce: string): (r: seq<RealmRow>)
    ensures |r| == |rows|
    ensures forall i :: 0 <= i < |rows| ==>
      r[i] == rows[i].(passwordVerify := Some(ciphertext), passwordVerifyNonce := Some(nonce))
  {
    seq(|rows|, i requires 0 <= i < |rows| =>
      rows[i].(passwordVerify := Some(ciphertext), passwordVerifyNonce := Some(nonce)))
  }

  /** `UPDATE realm SET encrypted = ?` on every row. */
  function SetEncrypted(rows: seq<RealmRow>, encrypted: bool): (r: seq<RealmRow>)
    ensures |r| == |rows|
    ensures forall i :: 0 <= i < |rows| ==> r[i] == rows[i].(encrypted := Flag(encrypted))
  {
    seq(|rows|, i requires 0 <= i < |rows| => rows[i].(encrypted := Flag(encrypted)))
  }

  /** `setRealmPasswordVerify`: store the zero-knowledge verification blob. */
  method SetRealmPasswordVerify(db: Database, ciphertext: string, nonce: string)
    requires db.Valid()
    modifies db`realm
    ensures db.Valid()
    ensures db.realm == SetVerify(old(db.realm), ciphertext, nonce)
  {
    ReplaceRealm(db.realm, db.channels, db.messages, db.attachments, db.profiles, db.invites,
                 SetVerify(db.realm, ciphertext, nonce));
    db.realm := SetVerify(db.realm, ciphertext, nonce);
  }

  /** The realm table after `syncRealmConfig`, decided on its first row. */
  function Synced(rows: seq<RealmRow>, cfg: ServerConfig): seq<RealmRow> {
    if rows == [] then rows
    else
      var afterEnc := if (rows[0].encrypted == 1) != cfg.encrypted then SetEncrypted(rows, cfg.encrypted) else rows;
      if Truthy(cfg.passwordVerify) && Truthy(cfg.passwordVerifyNonce) && rows[0].passwordVerify != cfg.passwordVerify
      then SetVerify(afterEnc, cfg.passwordVerify.value, cfg.passwordVerifyNonce.value)
      else afterEnc
  }

  /**
   * After a sync the stored encryption flag is the configured one, and with both
   * password variables set so is the stored verification blob (the nonce is replaced
   * together with a differing blob); the other columns are untouched, and a second
   * sync changes nothing.
   */
  lemma SyncMatchesConfig(rows: seq<RealmRow>, cfg: ServerConfig)
    requires |rows| == 1
    ensures var r := Synced(rows, cfg);
      var info := RowToRealmInfo(r[0]);
      && |r| == 1
      && info.encrypted == cfg.encrypted
      && (Truthy(cfg.passwordVerify) && Truthy(cfg.passwordVerifyNonce) ==> info.passwordVerify == cfg.passwordVerify)
      && (!(Truthy(cfg.passwordVerify) && Truthy(cfg.passwordVerifyNonce)) ==>
            info.passwordVerify == rows[0].passwordVerify && info.passwordVerifyNonce == rows[0].passwordVerifyNonce)
      && info.name == rows[0].name && info.id == rows[0].id && info.description == rows[0].description
      && info.retentionDays == rows[0].retentionDays && info.fileRetentionDays == rows[0].fileRetentionDays
      && Synced(r, cfg) == r
  {
  }

  /** `syncRealmConfig`: bring the stored realm row in line with the configuration. */
  method SyncRealmConfig(db: Database, cfg: ServerConfig)
    requires db.Valid()
    modifies db`realm
    ensures db.Valid()
    ensures db.realm == Synced(old(db.realm), cfg)
  {
    if db.realm != [] {
      var row := db.realm[0];
      if (row.encrypted == 1) != cfg.encrypted {
        db.realm := SetEncrypted(db.realm, cfg.encrypted);
      }
      if Truthy(cfg.passwordVerify) && Truthy(cfg.passwordVerifyNonce) {
        if row.passwordVerify != cfg.passwordVerify {
          db.realm := SetVerify(db.realm, cfg.passwordVerify.value, cfg.passwordVerifyNonce.value);
        }
      }
      ReplaceRealm(old(db.realm), db.channels, db.messages, db.attachments, db.profiles, db.invites, db.realm);
    }
  }
}
