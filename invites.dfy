/**
 * Invite links: a realm always has at least one, each pairs a public id with the
 * key that unlocks the realm, and regenerating a link swaps both for fresh ones.
 * The `uuid()` and `Date.now()` values the source draws are parameters.
 */
module Invites {
  import opened Wrappers
  import opened Sequences
  import opened Protocol
  import opened Tables
  import opened OrderedMaps

  function InviteIds(rows: seq<InviteRow>): set<string> {
    set r | r in rows :: r.id
  }

  function RowToLink(row: InviteRow): InviteLink {
    InviteLink(row.id, row.key, row.createdAt)
  }

  function MapRows(rows: seq<InviteRow>): (r: seq<InviteLink>)
    ensures |r| == |rows| && forall i :: 0 <= i < |rows| ==> r[i] == RowToLink(rows[i])
  {
    seq(|rows|, i requires 0 <= i < |rows| => RowToLink(rows[i]))
  }

  /** The table with only the invite rows it had: new invite rows keep the other tables consistent. */
  lemma ReplaceInvites(realm: seq<RealmRow>, channels: seq<ChannelRow>, messages: seq<MessageRow>,
                       attachments: seq<AttachmentRow>, profiles: OMap<string, ProfileRow>,
                       invites: seq<InviteRow>, invites': seq<InviteRow>)
    requires Consistent(realm, channels, messages, attachments, profiles, invites)
    requires UniqueBy(invites', InviteKey)
    ensures Consistent(realm, channels, messages, attachments, profiles, invites')
  {
  }

  /** `ensureDefaultInvite`: when the table is empty, insert a link with the given id and key. */
  method EnsureDefaultInvite(db: Database, id: string, key: string, now: int)
    requires db.Valid()
    modifies db`invites
    ensures db.Valid()
    ensures db.invites != []
    ensures old(db.invites) == [] ==> db.invites == [InviteRow(id, key, now)]
    ensures old(db.invites) != [] ==> db.invites == old(db.invites)
  {
    if db.invites == [] {
      ReplaceInvites(db.realm, db.channels, db.messages, db.attachments, db.profiles,
                     db.invites, [InviteRow(id, key, now)]);
      db.invites := [InviteRow(id, key, now)];
    }
  }

  function CreatedAt(row: InviteRow): int {
    row.createdAt
  }

  /** `getInviteLinks`: every link, oldest first. */
  function GetInviteLinks(rows: seq<InviteRow>): seq<InviteLink> {
    MapRows(SortBy(rows, CreatedAt))
  }

  /** The listing holds exactly the stored links, one entry per row, oldest first. */
  lemma InviteLinksListed(rows: seq<InviteRow>)
    ensures var r := GetInviteLinks(rows);
      && |r| == |rows|
      && (forall i, j :: 0 <= i < j < |r| ==> r[i].createdAt <= r[j].createdAt)
      && (forall row :: row in rows ==> RowToLink(row) in r)
      && (forall l :: l in r ==> exists row :: row in rows && RowToLink(row) == l)
  {
    var s := SortBy(rows, CreatedAt);
    var r := GetInviteLinks(rows);
    forall i, j | 0 <= i < j < |r|
      ensures r[i].createdAt <= r[j].createdAt
    {
      assert CreatedAt(s[i]) <= CreatedAt(s[j]);
    }
    forall row | row in rows
      ensures RowToLink(row) in r
    {
      assert row in multiset(s);
      var k :| 0 <= k < |s| && s[k] == row;
      assert r[k] == RowToLink(row);
    }
    forall l | l in r
      ensures exists row :: row in rows && RowToLink(row) == l
    {
      var k :| 0 <= k < |r| && r[k] == l;
      assert s[k] in multiset(s);
      assert s[k] in rows;
    }
  }

  /** `getInviteKey`: the key of the link with this id, if there is one. */
  function GetInviteKey(rows: seq<InviteRow>, id: string): (r: Option<string>)
    ensures r.Some? <==> id in InviteIds(rows)
    ensures r.Some? ==> exists i :: 0 <= i < |rows| && rows[i].id == id && rows[i].key == r.value
  {
    if rows == [] then None
    else if rows[0].id == id then Some(rows[0].key)
    else
      assert forall row :: row in rows <==> row == rows[0] || row in rows[1..];
      GetInviteKey(rows[1..], id)
  }

  /** With ids unique, the key found for an id is the key stored with it. */
  lemma {:induction false} InviteKeyExact(rows: seq<InviteRow>, row: InviteRow)
    requires UniqueBy(rows, InviteKey)
    requires row in rows
    ensures GetInviteKey(rows, row.id) == Some(row.key)
  {
    if rows[0] != row {
      assert row in rows[1..];
      assert rows[0].id != row.id by {
        var k :| 0 <= k < |rows| && rows[k] == row;
        assert InviteKey(rows[0]) != InviteKey(rows[k]);
      }
      InviteKeyExact(rows[1..], row);
    }
  }

  predicate OtherInvite(row: InviteRow, id: string) {
    row.id != id
  }

  /** The table after `regenerateInvite` replaced the link `id` by `(newId, newKey)`. */
  function Regenerated(rows: seq<InviteRow>, id: string, newId: string, newKey: string, now: int): seq<InviteRow> {
    FilterWith(rows, OtherInvite, id) + [InviteRow(newId, newKey, now)]
  }

  /**
   * `regenerateInvite`: an unknown id gives null and changes nothing; otherwise the
   * link is deleted and a new one inserted and returned. `newId` is a fresh uuid.
   */
  method RegenerateInvite(db: Database, id: string, newId: string, newKey: string, now: int)
    returns (r: Option<InviteLink>)
    requires db.Valid()
    requires newId !in InviteIds(db.invites)
    modifies db`invites
    ensures db.Valid()
    ensures id !in InviteIds(old(db.invites)) ==> r == None && db.invites == old(db.invites)
    ensures id in InviteIds(old(db.invites)) ==>
      r == Some(InviteLink(newId, newKey, now)) && db.invites == Regenerated(old(db.invites), id, newId, newKey, now)
  {
    r := None;
    if id in InviteIds(db.invites) {
      var kept := FilterWith(db.invites, OtherInvite, id);
      FilterWithUnique(db.invites, OtherInvite, id, InviteKey);
      forall i | 0 <= i < |kept|
        ensures InviteKey(kept[i]) != InviteKey(InviteRow(newId, newKey, now))
      {
        assert kept[i] in db.invites;
      }
      AppendUnique(kept, InviteRow(newId, newKey, now), InviteKey);
      ReplaceInvites(db.realm, db.channels, db.messages, db.attachments, db.profiles,
                     db.invites, kept + [InviteRow(newId, newKey, now)]);
      db.invites := kept + [InviteRow(newId, newKey, now)];
      r := Some(InviteLink(newId, newKey, now));
    }
  }

  /**
   * Regenerating retires the old id, makes the new id open with the new key, leaves
   * every other link as it was and keeps the number of links.
   */
  lemma RegenerateReplaces(rows: seq<InviteRow>, id: string, newId: string, newKey: string, now: int)
    requires UniqueBy(rows, InviteKey)
    requires id in InviteIds(rows) && newId !in InviteIds(rows)
    ensures var after := Regenerated(rows, id, newId, newKey, now);
      && GetInviteKey(after, id) == None
      && GetInviteKey(after, newId) == Some(newKey)
      && |after| == |rows|
      && forall other :: other != id && other != newId ==> GetInviteKey(after, other) == GetInviteKey(rows, other)
  {
    var kept := FilterWith(rows, OtherInvite, id);
    var after := Regenerated(rows, id, newId, newKey, now);
    FilterWithUnique(rows, OtherInvite, id, InviteKey);
    assert forall row :: row in after <==> row in kept || row == InviteRow(newId, newKey, now);
    assert id !in InviteIds(after);
    forall i | 0 <= i < |kept|
      ensures InviteKey(kept[i]) != InviteKey(InviteRow(newId, newKey, now))
    {
      assert kept[i] in rows;
    }
    AppendUnique(kept, InviteRow(newId, newKey, now), InviteKey);
    InviteKeyExact(after, InviteRow(newId, newKey, now));
    DropsOneRow(rows, id);
    forall other | other != id && other != newId
      ensures GetInviteKey(after, other) == GetInviteKey(rows, other)
    {
      if other in InviteIds(rows) {
        var row :| row in rows && row.id == other;
        InviteKeyExact(rows, row);
        assert row in kept;
        InviteKeyExact(after, row);
      } else {
        assert other !in InviteIds(after);
      }
    }
  }

  /** Ids are unique, so deleting the link `id` removes exactly one row. */
  lemma {:induction false} DropsOneRow(rows: seq<InviteRow>, id: string)
    requires UniqueBy(rows, InviteKey) && id in InviteIds(rows)
    ensures |FilterWith(rows, OtherInvite, id)| == |rows| - 1
  {
    assert UniqueBy(rows[1..], InviteKey) by {
      forall i, j | 0 <= i < j < |rows[1..]|
        ensures InviteKey(rows[1..][i]) != InviteKey(rows[1..][j])
      {
        assert InviteKey(rows[i + 1]) != InviteKey(rows[j + 1]);
      }
    }
    if rows[0].id == id {
      forall i | 0 <= i < |rows[1..]|
        ensures OtherInvite(rows[1..][i], id)
      {
        assert InviteKey(rows[0]) != InviteKey(rows[i + 1]);
      }
      FilterWithAll(rows[1..], OtherInvite, id);
    } else {
      var row :| row in rows && row.id == id;
      assert row in rows[1..] by {
        assert rows == [rows[0]] + rows[1..];
      }
      DropsOneRow(rows[1..], id);
    }
  }
}
