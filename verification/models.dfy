/**
 The entity schema of the catalog: identifiers, the rating score enumeration
 and the records for albums, songs, playlists and recommendations, with the
 field defaults a freshly created row receives.
 */
module Models {

  type UserId = nat
  type SongId = nat
  type AlbumId = nat
  type GenreId = nat
  type ArtistId = nat
  type PlaylistId = nat

  /** A nullable foreign key. */
  datatype Option<T> = None | Some(value: T)

  /** The rating choices shared by albums and songs. */
  datatype Score = Unrated | Flop | Fade | Average | Classic | AllTime

  /** The integer stored in the database for a score. */
  function ScoreValue(sc: Score): (n: int)
    ensures 0 <= n <= 5
  {
    match sc
    case Unrated => 0
    case Flop => 1
    case Fade => 2
    case Average => 3
    case Classic => 4
    case AllTime => 5
  }

  /** The human-readable label of a score. */
  function ScoreLabel(sc: Score): string
  {
    match sc
    case Unrated => "Unrated"
    case Flop => "Flop"
    case Fade => "Fade"
    case Average => "Average"
    case Classic => "Classic"
    case AllTime => "All Time"
  }

  /** The score a stored integer denotes, if it is one of the choices. */
  function ScoreOf(n: int): (r: Option<Score>)
    ensures r.Some? <==> 0 <= n <= 5
    ensures r.Some? ==> ScoreValue(r.value) == n
  {
    if n == 0 then Some(Unrated)
    else if n == 1 then Some(Flop)
    else if n == 2 then Some(Fade)
    else if n == 3 then Some(Average)
    else if n == 4 then Some(Classic)
    else if n == 5 then Some(AllTime)
    else None
  }

  /** Decoding the stored integer of a score gives the score back. */
  lemma ScoreRoundTrip(sc: Score)
    ensures ScoreOf(ScoreValue(sc)) == Some(sc)
  {
  }

  /** Distinct scores are stored as distinct integers and carry distinct labels. */
  lemma ScoreDistinct(a: Score, b: Score)
    requires a != b
    ensures ScoreValue(a) != ScoreValue(b)
    ensures ScoreLabel(a) != ScoreLabel(b)
  {
  }

  datatype Album = Album(rating: int, reviewers: int)

  /** Every song belongs to exactly one album. */
  datatype Song = Song(album: AlbumId, rating: int, reviewers: int)

  /** Every playlist has exactly one owner; its songs form a set, so no song appears twice. */
  datatype Playlist = Playlist(owner: UserId, name: string, songs: set<SongId>)

  /**
   A recommendation always names a sender and a recipient; each of its four
   targets is an independent nullable reference.
   */
  datatype Recommendation = Recommendation(
    fromUser: UserId,
    forUser: UserId,
    song: Option<SongId>,
    album: Option<AlbumId>,
    genre: Option<GenreId>,
    artist: Option<ArtistId>)

  /** How many of the four targets of a recommendation are set. */
  function TargetCount(rec: Recommendation): (n: nat)
    ensures n <= 4
    ensures n == 0 <==> rec.song.None? && rec.album.None? && rec.genre.None? && rec.artist.None?
  {
    (if rec.song.Some? then 1 else 0) + (if rec.album.Some? then 1 else 0)
    + (if rec.genre.Some? then 1 else 0) + (if rec.artist.Some? then 1 else 0)
  }

  /** The schema admits recommendations with no target and with several targets. */
  lemma SchemaDoesNotForceOneTarget(from: UserId, to: UserId, s: SongId, a: AlbumId)
    ensures TargetCount(Recommendation(from, to, None, None, None, None)) == 0
    ensures TargetCount(Recommendation(from, to, Some(s), Some(a), None, None)) == 2
  {
  }

  /** A newly created album is unrated and has no reviewers. */
  function NewAlbum(): (a: Album)
    ensures ScoreOf(a.rating) == Some(Unrated)
    ensures a.reviewers == 0
  {
    Album(0, 0)
  }

  /** A newly created song in `album` is unrated and has no reviewers. */
  function NewSong(album: AlbumId): (s: Song)
    ensures s.album == album
    ensures ScoreOf(s.rating) == Some(Unrated)
    ensures s.reviewers == 0
  {
    Song(album, 0, 0)
  }
}
