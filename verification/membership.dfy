/**
 Playlist membership edits. Each edit first filters the requested ids
 through the song table, so ids that match no song are dropped; the
 surviving songs then replace, extend or shrink the membership set.
 */
module Membership {
  import opened Models

  /** The songs the request names that exist in the catalog (`filter(id__in=...)`). */
  function Existing(given: seq<SongId>, catalog: set<SongId>): (r: set<SongId>)
    ensures forall id :: id in r <==> id in given && id in catalog
  {
    set id | id in given && id in catalog
  }

  /** Adding songs: the old members together with the existing requested songs. */
  function Add(members: set<SongId>, given: seq<SongId>, catalog: set<SongId>): (r: set<SongId>)
    ensures members <= r
    ensures forall id :: id in r && id !in members ==> id in given && id in catalog
    ensures forall id :: id in given && id in catalog ==> id in r
  {
    members + Existing(given, catalog)
  }

  /** Removing songs: the old members less the existing requested songs. */
  function Remove(members: set<SongId>, given: seq<SongId>, catalog: set<SongId>): (r: set<SongId>)
    ensures r <= members
    ensures forall id :: id in members && id !in r ==> id in given && id in catalog
    ensures forall id :: id in given && id in catalog ==> id !in r
  {
    members - Existing(given, catalog)
  }

  /**
   The removal loop of the remove-song action: each requested id that names
   a song is taken out of the membership, one at a time.
   */
  method RemoveEach(members: set<SongId>, given: seq<SongId>, catalog: set<SongId>)
    returns (r: set<SongId>)
    ensures r == Remove(members, given, catalog)
  {
    r := members;
    var i := 0;
    while i < |given|
      invariant 0 <= i <= |given|
      invariant r == members - Existing(given[..i], catalog)
    {
      if given[i] in catalog {
        r := r - {given[i]};
      }
      assert given[..i + 1] == given[..i] + [given[i]];
      i := i + 1;
    }
    assert given[..i] == given;
  }

  /** Adding the same songs a second time changes nothing. */
  lemma AddIdempotent(members: set<SongId>, given: seq<SongId>, catalog: set<SongId>)
    ensures Add(Add(members, given, catalog), given, catalog) == Add(members, given, catalog)
  {
  }

  /** Removing songs that are not members changes nothing. */
  lemma RemoveNonMembers(members: set<SongId>, given: seq<SongId>, catalog: set<SongId>)
    requires forall id :: id in given ==> id !in members
    ensures Remove(members, given, catalog) == members
  {
  }

  /** When every member is a catalog song, removal is plain set difference with the request. */
  lemma RemoveIsDifference(members: set<SongId>, given: seq<SongId>, catalog: set<SongId>)
    requires members <= catalog
    ensures Remove(members, given, catalog) == members - (set id | id in given)
  {
  }
}
