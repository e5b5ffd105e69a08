/**
 * The profile cache: the display name and bio each public key last claimed, with the
 * time it was last seen. The table is keyed by public key; the clock is `now`.
 */
module Profiles {
  import opened Wrappers
  import opened Sequences
  import opened Protocol
  import opened Tables
  import opened OrderedMaps

  /** The profile a stored row describes. */
  function RowToProfile(row: ProfileRow): UserProfile {
    UserProfile(row.publicKey, row.name, row.bio, Some(row.lastSeen))
  }

  /** `upsertProfile` on the table: insert, or overwrite name, bio and last-seen time in place. */
  function Upserted(profiles: OMap<string, ProfileRow>, p: UserProfile, now: int): (r: OMap<string, ProfileRow>)
    requires ProfilesKeyed(profiles)
    ensures ProfilesKeyed(r)
  {
    profiles.Put(p.publicKey, ProfileRow(p.publicKey, p.name, p.bio, now))
  }

  /** `upsertProfile`. */
  method UpsertProfile(db: Database, p: UserProfile, now: int)
    requires db.Valid()
    modifies db`profiles
    ensures db.Valid()
    ensures db.profiles == Upserted(old(db.profiles), p, now)
  {
    db.profiles := Upserted(db.profiles, p, now);
  }

  /** `getProfile`: the cached profile of a public key, if any. */
  function GetProfile(profiles: OMap<string, ProfileRow>, publicKey: string): (r: Option<UserProfile>)
    requires ProfilesKeyed(profiles)
    ensures r.Some? <==> publicKey in profiles.keys
    ensures r.Some? ==> r.value.publicKey == publicKey && r.value.lastSeen.Some?
  {
    if publicKey in profiles.vals then Some(RowToProfile(profiles.vals[publicKey])) else None
  }

  /**
   * An upsert makes the key read back as the claimed profile seen at `now`, leaves
   * every other key as it was, and adds a row only for a key not seen before.
   */
  lemma UpsertThenGet(profiles: OMap<string, ProfileRow>, p: UserProfile, now: int)
    requires ProfilesKeyed(profiles)
    ensures var after := Upserted(profiles, p, now);
      && GetProfile(after, p.publicKey) == Some(p.(lastSeen := Some(now)))
      && (forall k :: k != p.publicKey ==> GetProfile(after, k) == GetProfile(profiles, k))
      && after.Size() == (if p.publicKey in profiles.keys then profiles.Size() else profiles.Size() + 1)
  {
  }

  function LastSeenDesc(row: ProfileRow): int {
    -row.lastSeen
  }

  /** `getAllProfiles`: every cached profile, most recently seen first. */
  function GetAllProfiles(profiles: OMap<string, ProfileRow>): seq<UserProfile>
    requires profiles.Valid()
  {
    var rows := SortBy(profiles.Values(), LastSeenDesc);
    seq(|rows|, i requires 0 <= i < |rows| => RowToProfile(rows[i]))
  }

  /**
   * The listing has one entry per cached key, each the profile `getProfile` gives for
   * it, most recently seen first.
   */
  lemma AllProfilesListed(profiles: OMap<string, ProfileRow>)
    requires ProfilesKeyed(profiles)
    ensures var r := GetAllProfiles(profiles);
      && |r| == profiles.Size()
      && (forall i, j :: 0 <= i < j < |r| ==> r[j].lastSeen.value <= r[i].lastSeen.value)
      && (forall k :: k in profiles.keys ==> GetProfile(profiles, k).value in r)
      && (forall i :: 0 <= i < |r| ==> GetProfile(profiles, r[i].publicKey) == Some(r[i]))
  {
    ListingOrdered(profiles);
    ListingCovers(profiles);
    ListingSound(profiles);
  }

  /** The listing runs from the most recently seen profile to the least. */
  lemma ListingOrdered(profiles: OMap<string, ProfileRow>)
    requires ProfilesKeyed(profiles)
    ensures var r := GetAllProfiles(profiles);
      && |r| == profiles.Size()
      && forall i, j :: 0 <= i < j < |r| ==> r[j].lastSeen.value <= r[i].lastSeen.value
  {
    var rows := SortBy(profiles.Values(), LastSeenDesc);
    var r := GetAllProfiles(profiles);
    forall i, j | 0 <= i < j < |r|
      ensures r[j].lastSeen.value <= r[i].lastSeen.value
    {
      assert LastSeenDesc(rows[i]) <= LastSeenDesc(rows[j]);
    }
  }

  /** Every cached key's profile is listed. */
  lemma ListingCovers(profiles: OMap<string, ProfileRow>)
    requires ProfilesKeyed(profiles)
    ensures forall k :: k in profiles.keys ==> GetProfile(profiles, k).value in GetAllProfiles(profiles)
  {
    var vs := profiles.Values();
    var rows := SortBy(vs, LastSeenDesc);
    var r := GetAllProfiles(profiles);
    forall k | k in profiles.keys
      ensures GetProfile(profiles, k).value in r
    {
      var n :| 0 <= n < |profiles.keys| && profiles.keys[n] == k;
      assert vs[n] in multiset(rows);
      var m :| 0 <= m < |rows| && rows[m] == vs[n];
      assert r[m] == GetProfile(profiles, k).value;
    }
  }

  /** Every listed profile is the one `getProfile` gives for its key. */
  lemma ListingSound(profiles: OMap<string, ProfileRow>)
    requires ProfilesKeyed(profiles)
    ensures var r := GetAllProfiles(profiles);
      forall i :: 0 <= i < |r| ==> GetProfile(profiles, r[i].publicKey) == Some(r[i])
  {
    var vs := profiles.Values();
    var rows := SortBy(vs, LastSeenDesc);
    var r := GetAllProfiles(profiles);
    forall i | 0 <= i < |r|
      ensures GetProfile(profiles, r[i].publicKey) == Some(r[i])
    {
      assert rows[i] in multiset(vs);
      var n :| 0 <= n < |vs| && vs[n] == rows[i];
      assert profiles.vals[profiles.keys[n]] == rows[i];
    }
  }
}
