/**
 Properties of the request handlers: the store invariant every request
 preserves, the rating bound, playlist set algebra at the level of whole
 requests, and how new recommendations and playlists appear in listings.
 */
module Properties {
  import opened Models
  import Rating
  import Membership
  import opened Views

  /** A recommendation whose users exist and whose set targets exist. */
  predicate RecordValid(s: State, rec: Recommendation)
  {
    && rec.fromUser in s.users && rec.forUser in s.users
    && (rec.song.Some? ==> rec.song.value in s.songs)
    && (rec.album.Some? ==> rec.album.value in s.albums)
    && (rec.genre.Some? ==> rec.genre.value in s.genres)
    && (rec.artist.Some? ==> rec.artist.value in s.artists)
  }

  /**
   The store invariant: every song's album exists and its reviewer count is
   not negative, every playlist has an existing owner and only catalog songs,
   and every recommendation refers to existing rows.
   */
  predicate Valid(s: State)
  {
    && SequenceAhead(s)
    && (forall id :: id in s.songs ==> s.songs[id].album in s.albums && s.songs[id].reviewers >= 0)
    && (forall p :: p in s.playlists ==>
          s.playlists[p].owner in s.users && s.playlists[p].songs <= s.songs.Keys)
    && (forall i :: 0 <= i < |s.recs| ==> RecordValid(s, s.recs[i]))
  }

  /** Every stored song rating is one of the score choices. */
  predicate RatingsInRange(s: State)
  {
    forall id :: id in s.songs ==> ScoreOf(s.songs[id].rating).Some?
  }

  /** Every stored recommendation has exactly one target. */
  predicate SingleTargets(s: State)
  {
    forall i :: 0 <= i < |s.recs| ==> TargetCount(s.recs[i]) == 1
  }

  /** An empty store with only registered users satisfies the invariant. */
  lemma EmptyStoreValid(users: set<UserId>)
    ensures Valid(State(map[], map[], {}, {}, users, map[], 0, []))
  {
  }

  /** A song row created with its defaults keeps a valid store valid. */
  lemma NewSongKeepsValid(s: State, id: SongId, album: AlbumId)
    requires Valid(s) && RatingsInRange(s) && album in s.albums
    ensures Valid(s.(songs := s.songs[id := NewSong(album)]))
    ensures RatingsInRange(s.(songs := s.songs[id := NewSong(album)]))
  {
    var t := s.(songs := s.songs[id := NewSong(album)]);
    forall i | 0 <= i < |t.recs|
      ensures RecordValid(t, t.recs[i])
    {
      assert RecordValid(s, s.recs[i]);
    }
  }

  /** Requests from an authenticated user keep the store valid. */
  lemma HandlePreservesValid(s: State, caller: UserId, req: Request)
    requires Valid(s) && caller in s.users
    ensures Valid(Handle(s, caller, req).state)
  {
  }

  /**
   In a valid store the rating division never divides by zero, so rating an
   existing song always succeeds, for a GET and for a PUT of any score.
   */
  lemma ValidRatingNeverDividesByZero(s: State, caller: UserId, id: SongId, verb: Verb<int>)
    requires Valid(s)
    ensures Handle(s, caller, Rate(id, verb)).response != Failed(ZeroDivision)
    ensures id in s.songs ==> Handle(s, caller, Rate(id, verb)).response.One?
  {
  }

  /**
   Ratings stay among the score choices as long as every submitted score is
   one of them; the server itself never checks the score.
   */
  lemma RatingsStayInRange(s: State, caller: UserId, req: Request)
    requires Valid(s) && RatingsInRange(s)
    requires req.Rate? && req.rate.Put? ==> ScoreOf(req.rate.body).Some?
    ensures RatingsInRange(Handle(s, caller, req).state)
  {
    var t := Handle(s, caller, req).state;
    if req.Rate? && req.rate.Put? && req.song in s.songs {
      var song := s.songs[req.song];
      Rating.MeanStepBound(song.rating, song.reviewers, req.rate.body);
      assert t.songs == s.songs[req.song := t.songs[req.song]];
    }
  }

  /** Out-of-range scores are stored as computed: a score of 100 on a fresh song is kept as 100. */
  lemma UncheckedScoreIsStored(s: State, caller: UserId, id: SongId, album: AlbumId)
    requires SequenceAhead(s) && id in s.songs && s.songs[id] == NewSong(album)
    ensures Handle(s, caller, Rate(id, Put(100))) ==
      Reply(s.(songs := s.songs[id := Song(album, 100, 1)]), One(SongEntity(id, Song(album, 100, 1))))
  {
  }

  /** Requests only ever create recommendations with a single target. */
  lemma HandlePreservesSingleTargets(s: State, caller: UserId, req: Request)
    requires SequenceAhead(s) && SingleTargets(s)
    ensures SingleTargets(Handle(s, caller, req).state)
  {
    var t := Handle(s, caller, req).state;
    if req.RecommendTarget? && Recommend(s, caller, req.target, req.forUser).Ok? {
      var rec := RecordFor(caller, req.forUser, req.target);
      assert t.recs == s.recs + [rec];
      forall i | 0 <= i < |t.recs|
        ensures TargetCount(t.recs[i]) == 1
      {
        if i < |s.recs| {
          assert t.recs[i] == s.recs[i];
        }
      }
    }
  }

  /** The catalog endpoints refuse every write and change nothing. */
  lemma CatalogWritesRejected(s: State, caller: UserId, kind: Catalog, op: WriteOp)
    requires SequenceAhead(s)
    ensures Handle(s, caller, WriteCatalog(kind, op)) == Reply(s, Failed(MethodNotAllowed))
  {
  }

  /** Reading an existing catalog row succeeds and changes nothing. */
  lemma CatalogReadsAccepted(s: State, caller: UserId, t: Target)
    requires SequenceAhead(s)
    ensures Exists(s, t) <==> Handle(s, caller, Fetch(t)).response.One?
    ensures Handle(s, caller, Fetch(t)).state == s
  {
  }

  /**
   A new recommendation is listed first in its recipient's inbox, and every
   other user's inbox is unchanged, the sender's included.
   */
  lemma {:induction false} RecommendationReachesRecipient(s: State, caller: UserId, t: Target, to: UserId, u: UserId)
    requires Recommend(s, caller, t, to).Ok?
    ensures var after := Recommend(s, caller, t, to).value.state;
      && Inbox(after.recs, to) == [RecordFor(caller, to, t)] + Inbox(s.recs, to)
      && (u != to ==> Inbox(after.recs, u) == Inbox(s.recs, u))
  {
    var after := Recommend(s, caller, t, to).value.state;
    var rec := RecordFor(caller, to, t);
    assert after.recs[..|after.recs| - 1] == s.recs;
    assert after.recs[|after.recs| - 1] == rec;
  }

  /** A playlist created by a user is listed for that user only, beside their earlier ones. */
  lemma CreatedPlaylistListedForOwner(s: State, caller: UserId, name: string, given: seq<SongId>, u: UserId)
    requires SequenceAhead(s)
    ensures var r := CreatePlaylist(s, caller, name, given);
      && ListPlaylists(r.state, caller) == ListPlaylists(s, caller)[r.body.0 := r.body.1]
      && (u != caller ==> ListPlaylists(r.state, u) == ListPlaylists(s, u))
  {
  }

  /** Repeated ids in a create request collapse: songs [1, 2, 2] give the members {1, 2}. */
  lemma CreateCollapsesDuplicates(s: State, caller: UserId, name: string)
    requires SequenceAhead(s) && 1 in s.songs && 2 in s.songs
    ensures CreatePlaylist(s, caller, name, [1, 2, 2]).body.1.songs == {1, 2}
  {
  }

  /** Sending the same add-song PUT twice has the effect of sending it once. */
  lemma AddSongsIdempotent(s: State, pid: PlaylistId, given: seq<SongId>)
    requires pid in s.playlists
    ensures var once := AddSongs(s, pid, Put(given)).value;
      AddSongs(once.state, pid, Put(given)) == Ok(once)
  {
    var once := AddSongs(s, pid, Put(given)).value;
    var pl := s.playlists[pid];
    Membership.AddIdempotent(pl.songs, given, s.songs.Keys);
    assert once.state.playlists[pid := once.body] == once.state.playlists;
  }

  /** A remove-song PUT naming no member of the playlist leaves the store unchanged. */
  lemma RemoveNonMembersNoOp(s: State, pid: PlaylistId, given: seq<SongId>)
    requires pid in s.playlists
    requires forall id :: id in given ==> id !in s.playlists[pid].songs
    ensures RemoveSongs(s, pid, Put(given)) == Ok(Step(s, s.playlists[pid]))
  {
    Membership.RemoveNonMembers(s.playlists[pid].songs, given, s.songs.Keys);
    assert s.playlists[pid := s.playlists[pid]] == s.playlists;
  }

  /** In a valid store, removing songs is set difference with the requested ids. */
  lemma RemoveSongsIsDifference(s: State, pid: PlaylistId, given: seq<SongId>)
    requires Valid(s) && pid in s.playlists
    ensures RemoveSongs(s, pid, Put(given)).value.body.songs
      == s.playlists[pid].songs - (set id | id in given)
  {
    Membership.RemoveIsDifference(s.playlists[pid].songs, given, s.songs.Keys);
  }

  /** Playlist edits do not depend on who asks: ownership is never checked. */
  lemma PlaylistEditsIgnoreCaller(s: State, c1: UserId, c2: UserId, pid: PlaylistId, verb: Verb<seq<SongId>>)
    requires SequenceAhead(s)
    ensures Handle(s, c1, AddToPlaylist(pid, verb)) == Handle(s, c2, AddToPlaylist(pid, verb))
    ensures Handle(s, c1, RemoveFromPlaylist(pid, verb)) == Handle(s, c2, RemoveFromPlaylist(pid, verb))
  {
  }
}
