/**
 The request handlers of the catalog API as pure transitions on one
 abstract store. Every handler runs as a single atomic step: a handler that
 fails leaves the store exactly as it was.
 */
module Views {
  import opened Models
  import Rating
  import Membership

  /** The whole persisted store. `nextPlaylist` is the id sequence of the playlist table. */
  datatype State = State(
    songs: map<SongId, Song>,
    albums: map<AlbumId, Album>,
    genres: set<GenreId>,
    artists: set<ArtistId>,
    users: set<UserId>,
    playlists: map<PlaylistId, Playlist>,
    nextPlaylist: PlaylistId,
    recs: seq<Recommendation>)

  /**
   Failure labels, not status codes. `DoesNotExist` covers every lookup of a
   missing row: the model class's exception raised by a primary-key `get` in
   a handler, and the framework's not-found error raised by its own retrieve.
   `MethodNotAllowed` is a refused verb, `ZeroDivision` Python's division by
   zero.
   */
  datatype Error = DoesNotExist | MethodNotAllowed | ZeroDivision

  datatype Result<T> = Ok(value: T) | Err(error: Error)

  /** An action reachable by GET (read only) or by PUT with a request body. */
  datatype Verb<T> = Get | Put(body: T)

  /** The store after an action together with the entity the action answers with. */
  datatype Step<T> = Step(state: State, body: T)

  /** The four read-only catalog endpoints and the write verbs they refuse. */
  datatype Catalog = Songs | Albums | Genres | Artists
  datatype WriteOp = Create | Update | PartialUpdate | Destroy

  /** A catalog item addressed by an endpoint's primary key. */
  datatype Target =
    | SongTarget(song: SongId)
    | AlbumTarget(album: AlbumId)
    | GenreTarget(genre: GenreId)
    | ArtistTarget(artist: ArtistId)

  /** A serialized row. */
  datatype Entity =
    | SongEntity(songId: SongId, song: Song)
    | AlbumEntity(albumId: AlbumId, album: Album)
    | GenreEntity(genreId: GenreId)
    | ArtistEntity(artistId: ArtistId)
    | PlaylistEntity(playlistId: PlaylistId, playlist: Playlist)

  predicate Exists(s: State, t: Target)
  {
    match t
    case SongTarget(id) => id in s.songs
    case AlbumTarget(id) => id in s.albums
    case GenreTarget(id) => id in s.genres
    case ArtistTarget(id) => id in s.artists
  }

  /** `queryset.get(id=pk)` on the catalog table the target names. */
  function Lookup(s: State, t: Target): (r: Result<Entity>)
    ensures r.Ok? <==> Exists(s, t)
    ensures r.Err? ==> r.error == DoesNotExist
    ensures t.SongTarget? && r.Ok? ==> r.value == SongEntity(t.song, s.songs[t.song])
    ensures t.AlbumTarget? && r.Ok? ==> r.value == AlbumEntity(t.album, s.albums[t.album])
    ensures t.GenreTarget? && r.Ok? ==> r.value == GenreEntity(t.genre)
    ensures t.ArtistTarget? && r.Ok? ==> r.value == ArtistEntity(t.artist)
  {
    match t
    case SongTarget(id) => if id in s.songs then Ok(SongEntity(id, s.songs[id])) else Err(DoesNotExist)
    case AlbumTarget(id) => if id in s.albums then Ok(AlbumEntity(id, s.albums[id])) else Err(DoesNotExist)
    case GenreTarget(id) => if id in s.genres then Ok(GenreEntity(id)) else Err(DoesNotExist)
    case ArtistTarget(id) => if id in s.artists then Ok(ArtistEntity(id)) else Err(DoesNotExist)
  }

  // ---------------------------------------------------------------------
  // Songs: rating

  /**
   The rate-song action. A GET answers with the song as stored; a PUT folds
   the submitted score into the running mean. The score is not range
   checked, and a stored reviewer count of -1 makes the division fail.
   */
  function RateSong(s: State, id: SongId, verb: Verb<int>): (r: Result<Step<Song>>)
    ensures id !in s.songs ==> r == Err(DoesNotExist)
    ensures id in s.songs && verb.Get? ==> r == Ok(Step(s, s.songs[id]))
    ensures id in s.songs && verb.Put? ==>
      && (r.Ok? <==> s.songs[id].reviewers != -1)
      && (r.Err? ==> r.error == ZeroDivision)
    ensures r.Ok? && verb.Put? ==>
      var before := s.songs[id];
      var after := r.value.body;
      && after.album == before.album
      && after.reviewers == before.reviewers + 1
      && (after.reviewers > 0 ==>
            after.reviewers * after.rating
              <= before.rating * before.reviewers + verb.body
              < after.reviewers * (after.rating + 1))
      && (after.reviewers < 0 ==>
            after.reviewers * (after.rating + 1)
              < before.rating * before.reviewers + verb.body
              <= after.reviewers * after.rating)
      && r.value.state == s.(songs := s.songs[id := after])
  {
    if id !in s.songs then Err(DoesNotExist)
    else
      var song := s.songs[id];
      match verb
      case Get => Ok(Step(s, song))
      case Put(score) =>
        if song.reviewers + 1 == 0 then Err(ZeroDivision)
        else
          var rated := song.(rating := Rating.MeanStep(song.rating, song.reviewers, score),
                             reviewers := song.reviewers + 1);
          Ok(Step(s.(songs := s.songs[id := rated]), rated))
  }

  // ---------------------------------------------------------------------
  // Recommendations

  /** The row `Recommendation.objects.create` stores: exactly the addressed target is set. */
  function RecordFor(from: UserId, to: UserId, t: Target): (rec: Recommendation)
    ensures rec.fromUser == from && rec.forUser == to
    ensures TargetCount(rec) == 1
    ensures t.SongTarget? ==> rec.song == Some(t.song)
    ensures t.AlbumTarget? ==> rec.album == Some(t.album)
    ensures t.GenreTarget? ==> rec.genre == Some(t.genre)
    ensures t.ArtistTarget? ==> rec.artist == Some(t.artist)
  {
    match t
    case SongTarget(id) => Recommendation(from, to, Some(id), None, None, None)
    case AlbumTarget(id) => Recommendation(from, to, None, Some(id), None, None)
    case GenreTarget(id) => Recommendation(from, to, None, None, Some(id), None)
    case ArtistTarget(id) => Recommendation(from, to, None, None, None, Some(id))
  }

  /**
   The recommend-song, recommend-album, recommend-genre and recommend-artist
   actions: look the target up, look the recipient up, append one
   recommendation from the caller, and answer with the target unchanged.
   */
  function Recommend(s: State, caller: UserId, t: Target, forUser: UserId): (r: Result<Step<Entity>>)
    ensures r.Ok? <==> Exists(s, t) && forUser in s.users
    ensures r.Err? ==> r.error == DoesNotExist
    ensures r.Ok? ==>
      && r.value.state == s.(recs := s.recs + [RecordFor(caller, forUser, t)])
      && Lookup(s, t) == Ok(r.value.body)
  {
    match Lookup(s, t)
    case Err(e) => Err(e)
    case Ok(entity) =>
      if forUser !in s.users then Err(DoesNotExist)
      else Ok(Step(s.(recs := s.recs + [RecordFor(caller, forUser, t)]), entity))
  }

  /**
   The recommendation listing: the recommendations addressed to `user`,
   newest first (rows are appended in id order and listed by descending id).
   */
  function Inbox(recs: seq<Recommendation>, user: UserId): (r: seq<Recommendation>)
    ensures |r| <= |recs|
    ensures forall x :: x in r ==> x.forUser == user
    ensures forall x: Recommendation :: x.forUser == user ==> multiset(r)[x] == multiset(recs)[x]
  {
    if recs == [] then []
    else
      var last := recs[|recs| - 1];
      var init := recs[..|recs| - 1];
      assert recs == init + [last];
      (if last.forUser == user then [last] else []) + Inbox(init, user)
  }

  // ---------------------------------------------------------------------
  // Playlists

  /** Every playlist id was issued by the id sequence, so the next value is free. */
  predicate SequenceAhead(s: State)
  {
    forall p :: p in s.playlists ==> p < s.nextPlaylist
  }

  /** The playlist listing: exactly the playlists the caller owns. */
  function ListPlaylists(s: State, caller: UserId): (r: map<PlaylistId, Playlist>)
    ensures forall p :: p in r <==> p in s.playlists && s.playlists[p].owner == caller
    ensures forall p :: p in r ==> r[p] == s.playlists[p]
  {
    map p | p in s.playlists && s.playlists[p].owner == caller :: s.playlists[p]
  }

  /**
   The playlist create action: a new playlist owned by the caller whose
   songs are the requested ids that name songs; no other row changes.
   */
  function CreatePlaylist(s: State, caller: UserId, name: string, given: seq<SongId>)
    : (r: Step<(PlaylistId, Playlist)>)
    requires SequenceAhead(s)
    ensures SequenceAhead(r.state)
    ensures r.body.0 !in s.playlists
    ensures r.body.1.owner == caller && r.body.1.name == name
    ensures forall id :: id in r.body.1.songs <==> id in given && id in s.songs
    ensures r.state.playlists == s.playlists[r.body.0 := r.body.1]
    ensures r.state == s.(playlists := r.state.playlists, nextPlaylist := r.state.nextPlaylist)
  {
    var id := s.nextPlaylist;
    var pl := Playlist(caller, name, Membership.Existing(given, s.songs.Keys));
    Step(s.(playlists := s.playlists[id := pl], nextPlaylist := id + 1), (id, pl))
  }

  /**
   The add-song action. The playlist is looked up among all playlists,
   whoever owns it. A PUT unites its songs with the requested ids that name
   songs; a GET answers with it unchanged.
   */
  function AddSongs(s: State, pid: PlaylistId, verb: Verb<seq<SongId>>): (r: Result<Step<Playlist>>)
    ensures r.Err? <==> pid !in s.playlists
    ensures r.Err? ==> r.error == DoesNotExist
    ensures r.Ok? && verb.Get? ==> r.value == Step(s, s.playlists[pid])
    ensures r.Ok? && verb.Put? ==>
      var before := s.playlists[pid];
      var after := r.value.body;
      && after.owner == before.owner && after.name == before.name
      && after.songs == Membership.Add(before.songs, verb.body, s.songs.Keys)
      && r.value.state == s.(playlists := s.playlists[pid := after])
  {
    if pid !in s.playlists then Err(DoesNotExist)
    else
      var pl := s.playlists[pid];
      match verb
      case Get => Ok(Step(s, pl))
      case Put(given) =>
        var edited := pl.(songs := Membership.Add(pl.songs, given, s.songs.Keys));
        Ok(Step(s.(playlists := s.playlists[pid := edited]), edited))
  }

  /**
   The remove-song action. The playlist is looked up among all playlists,
   whoever owns it. A PUT takes each requested id that names a song out of
   its songs; a GET answers with it unchanged.
   */
  function RemoveSongs(s: State, pid: PlaylistId, verb: Verb<seq<SongId>>): (r: Result<Step<Playlist>>)
    ensures r.Err? <==> pid !in s.playlists
    ensures r.Err? ==> r.error == DoesNotExist
    ensures r.Ok? && verb.Get? ==> r.value == Step(s, s.playlists[pid])
    ensures r.Ok? && verb.Put? ==>
      var before := s.playlists[pid];
      var after := r.value.body;
      && after.owner == before.owner && after.name == before.name
      && after.songs == Membership.Remove(before.songs, verb.body, s.songs.Keys)
      && r.value.state == s.(playlists := s.playlists[pid := after])
  {
    if pid !in s.playlists then Err(DoesNotExist)
    else
      var pl := s.playlists[pid];
      match verb
      case Get => Ok(Step(s, pl))
      case Put(given) =>
        var edited := pl.(songs := Membership.Remove(pl.songs, given, s.songs.Keys));
        Ok(Step(s.(playlists := s.playlists[pid := edited]), edited))
  }

  // ---------------------------------------------------------------------
  // Dispatch

  datatype Request =
    | WriteCatalog(kind: Catalog, op: WriteOp)
    | Fetch(target: Target)
    | Rate(song: SongId, rate: Verb<int>)
    | RecommendTarget(target: Target, forUser: UserId)
    | ListInbox
    | ListOwnPlaylists
    | NewPlaylist(name: string, songs: seq<SongId>)
    | AddToPlaylist(playlist: PlaylistId, add: Verb<seq<SongId>>)
    | RemoveFromPlaylist(playlist: PlaylistId, remove: Verb<seq<SongId>>)

  datatype Response =
    | One(entity: Entity)
    | RecommendationList(recs: seq<Recommendation>)
    | PlaylistMap(playlists: map<PlaylistId, Playlist>)
    | Failed(error: Error)

  datatype Reply = Reply(state: State, response: Response)

  /** The requests that may write to the store. */
  predicate Mutates(req: Request)
  {
    match req
    case Rate(_, verb) => verb.Put?
    case RecommendTarget(_, _) => true
    case NewPlaylist(_, _) => true
    case AddToPlaylist(_, verb) => verb.Put?
    case RemoveFromPlaylist(_, verb) => verb.Put?
    case _ => false
  }

  /** `t` has the catalog and the users of `s`, and no song lost reviewers. */
  predicate CatalogKept(s: State, t: State)
  {
    && t.songs.Keys == s.songs.Keys
    && t.albums == s.albums && t.genres == s.genres
    && t.artists == s.artists && t.users == s.users
    && (forall id :: id in s.songs ==> s.songs[id].reviewers <= t.songs[id].reviewers)
    && (forall id :: id in s.songs ==> t.songs[id].album == s.songs[id].album)
  }

  function FromResult<T>(s: State, r: Result<Step<T>>, wrap: T -> Entity): Reply
  {
    match r
    case Ok(step) => Reply(step.state, One(wrap(step.body)))
    case Err(e) => Reply(s, Failed(e))
  }

  /**
   Serve one request from the authenticated `caller`. The catalog endpoints
   refuse every write; a failed request leaves the store unchanged.
   */
  function Handle(s: State, caller: UserId, req: Request): (r: Reply)
    requires SequenceAhead(s)
    ensures SequenceAhead(r.state)
    ensures r.response.Failed? ==> r.state == s
    ensures !Mutates(req) ==> r.state == s
    ensures CatalogKept(s, r.state)
  {
    match req
    case WriteCatalog(_, _) => Reply(s, Failed(MethodNotAllowed))
    case Fetch(t) =>
      (match Lookup(s, t)
       case Ok(e) => Reply(s, One(e))
       case Err(e) => Reply(s, Failed(e)))
    case Rate(id, verb) => FromResult(s, RateSong(s, id, verb), (song: Song) => SongEntity(id, song))
    case RecommendTarget(t, to) => FromResult(s, Recommend(s, caller, t, to), (e: Entity) => e)
    case ListInbox => Reply(s, RecommendationList(Inbox(s.recs, caller)))
    case ListOwnPlaylists => Reply(s, PlaylistMap(ListPlaylists(s, caller)))
    case NewPlaylist(name, given) =>
      var step := CreatePlaylist(s, caller, name, given);
      Reply(step.state, One(PlaylistEntity(step.body.0, step.body.1)))
    case AddToPlaylist(pid, verb) =>
      FromResult(s, AddSongs(s, pid, verb), (pl: Playlist) => PlaylistEntity(pid, pl))
    case RemoveFromPlaylist(pid, verb) =>
      FromResult(s, RemoveSongs(s, pid, verb), (pl: Playlist) => PlaylistEntity(pid, pl))
  }
}
